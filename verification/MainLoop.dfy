/** The two nested loops of the client, driven by the list of wake-ups of a run. */
module MainLoop {
  import opened Protocol
  import opened ClientSpec
  import opened ClientInvariant
  import opened ClientRuns
  import opened ClientProgram
  import opened ClientLoop
  import opened Endings

  /** Every action can happen when its turn comes. */
  ghost predicate CanFollow(c: Client, actions: seq<Action>, st: Settings) {
    actions != [] ==>
      && CanFollow(c, actions[..|actions| - 1], st)
      && Enabled(Follow(c, actions[..|actions| - 1], st), actions[|actions| - 1])
  }

  lemma {:induction false} FollowOne(c: Client, actions: seq<Action>, k: nat, st: Settings)
    requires k < |actions| && CanFollow(c, actions, st)
    ensures Follow(c, actions[..k + 1], st) == Apply(Follow(c, actions[..k], st), actions[k], st)
    ensures Enabled(Follow(c, actions[..k], st), actions[k])
  {
    var last := |actions| - 1;
    assert actions[..k + 1][..k] == actions[..k];
    if k < last {
      assert actions[..last][..k] == actions[..k] && actions[..last][..k + 1] == actions[..k + 1];
      FollowOne(c, actions[..last], k, st);
    } else {
      assert actions[..k + 1] == actions;
    }
  }

  /** What is legal is possible. */
  lemma {:induction false} LegalIsPossible(c: Client, actions: seq<Action>, st: Settings, written: Content)
    requires LegalFrom(c, actions, st, written)
    ensures CanFollow(c, actions, st)
  {
    if actions != [] {
      LegalIsPossible(c, actions[..|actions| - 1], st, written);
    }
  }

  /** The loop that resolves new selections. It goes round again as long as selection events arrive
      during its roundtrip, and is left when none did, with an error, at an `unreachable!()`, or by
      being suspended in a roundtrip that the run does not get beyond. `k` counts the wake-ups used. */
  method HandleNewSelectionState(state: State, actions: seq<Action>, start: nat, first: Env, ghost c: Client)
    returns (k: nat, env: Env, phase: Phase)
    requires state.Valid() && EnvOk(first) && start <= |actions|
    requires CanFollow(c, actions, state.settings)
    requires Follow(c, actions[..start], state.settings) == TakeTurn(state.View(), state.settings, first)
    modifies state, state.conn, state.repr
    ensures state.Valid() && start <= k <= |actions| && EnvOk(env)
    ensures old(state.repr) <= state.repr && fresh(state.repr - old(state.repr))
    ensures var reached := Follow(c, actions[..k], state.settings);
            match phase
            case Idle => reached == Client(PublishAll(state.View(), Slots(env.order(state.View().seats.Keys))), Idle)
            case Crashed => reached.phase == Crashed
            case _ => reached == Client(state.View(), phase)
    ensures phase.InRoundtrip? ==> k == |actions|
  {
    k, env := start, first;
    while true
      invariant state.Valid() && start <= k <= |actions| && EnvOk(env)
      invariant old(state.repr) <= state.repr && fresh(state.repr - old(state.repr))
      invariant Follow(c, actions[..k], state.settings) == TakeTurn(state.View(), state.settings, env)
      decreases |actions| - k
    {
      var again;
      k, env, again, phase := Round(state, actions, k, env, c);
      if !again {
        return;
      }
    }
  }

  /** One iteration of the loop. */
  method Round(state: State, actions: seq<Action>, start: nat, first: Env, ghost c: Client)
    returns (k: nat, env: Env, again: bool, phase: Phase)
    requires state.Valid() && EnvOk(first) && start <= |actions|
    requires CanFollow(c, actions, state.settings)
    requires Follow(c, actions[..start], state.settings) == TakeTurn(state.View(), state.settings, first)
    modifies state, state.conn, state.repr
    ensures state.Valid() && start <= k <= |actions| && EnvOk(env) && (again ==> start < k)
    ensures old(state.repr) <= state.repr && fresh(state.repr - old(state.repr))
    ensures var reached := Follow(c, actions[..k], state.settings);
            if again then reached == TakeTurn(state.View(), state.settings, env)
            else match phase
              case Idle => reached == Client(PublishAll(state.View(), Slots(env.order(state.View().seats.Keys))), Idle)
              case Crashed => reached.phase == Crashed
              case _ => reached == Client(state.View(), phase)
    ensures !again && phase.InRoundtrip? ==> k == |actions|
  {
    k, env := start, first;
    var awaiting := BeginRound(state, env);
    if awaiting == [] {
      return k, env, false, Idle;
    }
    if k == |actions| {
      return k, env, false, InRoundtrip(awaiting);
    }
    FollowOne(c, actions, k, state.settings);
    env := actions[k].env;
    again, phase := FinishRound(state, awaiting, actions[k].batch, env);
    k := k + 1;
  }

  /** The rest of the loop's body, once the roundtrip has been answered. */
  method FinishRound(state: State, awaiting: seq<Awaiting>, batch: seq<Event>, env: Env) returns (again: bool,
                     phase: Phase)
    requires state.Valid() && EnvOk(env)
    modifies state, state.conn, state.repr
    ensures state.Valid() && old(state.repr) <= state.repr && fresh(state.repr - old(state.repr))
    ensures var c := OnRoundtripDone(old(state.View()), awaiting, batch, state.settings, env);
            if again then c == TakeTurn(state.View(), state.settings, env) && phase.Idle?
            else match phase
              case Idle => c == Client(PublishAll(state.View(), Slots(env.order(state.View().seats.Keys))), Idle)
              case Stopped => c == Client(state.View(), Stopped)
              case Crashed => c.phase == Crashed
              case InRoundtrip(_) => false
  {
    DispatchEvents(state, batch, env);
    if state.removedManager {
      return false, Stopped;
    }
    again := state.AnyGotNew();
    var ok := ResolveSelections(state, awaiting);
    if !ok {
      return false, Crashed;
    }
    return again, Idle;
  }

  /** What the main loop does once it has received events: they are dispatched, new selections are
      resolved, and what was held back is published if it may be. */
  method HandleEvents(state: State, actions: seq<Action>, start: nat, ghost c: Client) returns (k: nat, phase: Phase)
    requires state.Valid() && start < |actions| && actions[start].Events?
    requires CanFollow(c, actions, state.settings)
    requires Follow(c, actions[..start], state.settings) == Client(state.View(), Idle)
    modifies state, state.conn, state.repr
    ensures state.Valid() && start < k <= |actions|
    ensures old(state.repr) <= state.repr && fresh(state.repr - old(state.repr))
    ensures Reached(Follow(c, actions[..k], state.settings), state.View(), phase)
    ensures phase.InRoundtrip? ==> k == |actions|
  {
    FollowOne(c, actions, start, state.settings);
    var env: Env := actions[start].env;
    DispatchEvents(state, actions[start].batch, env);
    k := start + 1;
    if state.removedManager {
      phase := Stopped;
      return;
    }
    k, env, phase := HandleNewSelectionState(state, actions, k, env, c);
    if phase.Idle? {
      PublishAllDeferred(state, env);
    }
  }

  /** A run has reached this phase with this world. Of a crash only the fact is recorded. */
  predicate Reached(c: Client, w: World, phase: Phase) {
    c.phase == phase && (phase != Crashed ==> c.world == w)
  }

  /** Nothing can happen to a client that has ended. */
  lemma EndedRun(c: Client, actions: seq<Action>, k: nat, st: Settings)
    requires CanFollow(c, actions, st) && k <= |actions|
    requires var phase := Follow(c, actions[..k], st).phase; phase.Stopped? || phase.Crashed?
    ensures k == |actions|
  {
    if k < |actions| {
      FollowOne(c, actions, k, st);
    }
  }

  /** One round of the main loop: a pipe is ready, or events have arrived. */
  method HandleWakeUp(state: State, actions: seq<Action>, start: nat, ghost c: Client) returns (k: nat, phase: Phase)
    requires state.Valid() && start < |actions| && CanFollow(c, actions, state.settings)
    requires Follow(c, actions[..start], state.settings) == Client(state.View(), Idle)
    modifies state, state.conn, state.repr
    ensures state.Valid() && start < k <= |actions|
    ensures old(state.repr) <= state.repr && fresh(state.repr - old(state.repr))
    ensures Reached(Follow(c, actions[..k], state.settings), state.View(), phase)
    ensures k < |actions| ==> phase.Idle?
  {
    FollowOne(c, actions, start, state.settings);
    if actions[start].Events? {
      k, phase := HandleEvents(state, actions, start, c);
    } else {
      var ready := actions[start];
      var ok := HandlePipe(state, ready.seat, ready.ty, ready.pipe, ready.delivery);
      k, phase := start + 1, if ok then Idle else Crashed;
    }
    if phase.Stopped? || phase.Crashed? {
      EndedRun(c, actions, k, state.settings);
    }
  }

  /** The main loop. It does exactly what the run of its wake-ups prescribes. */
  method RunWithConnection(state: State, actions: seq<Action>) returns (phase: Phase)
    requires state.Valid() && CanFollow(Client(state.View(), Idle), actions, state.settings)
    modifies state, state.conn, state.repr
    ensures state.Valid()
    ensures Reached(Follow(Client(old(state.View()), Idle), actions, state.settings), state.View(), phase)
  {
    ghost var c := Client(state.View(), Idle);
    var k := 0;
    phase := Idle;
    while k < |actions|
      invariant state.Valid() && k <= |actions|
      invariant old(state.repr) <= state.repr && fresh(state.repr - old(state.repr))
      invariant Reached(Follow(c, actions[..k], state.settings), state.View(), phase)
      invariant k < |actions| ==> phase.Idle?
      decreases |actions| - k
    {
      k, phase := HandleWakeUp(state, actions, k, c);
    }
    assert actions[..k] == actions;
  }

  /** The program, run from its start, gets where the run of the specification gets: what is proved
      about runs is true of the program. */
  method RunFromStart(settings: Settings, actions: seq<Action>, ghost written: Content) returns (state: State,
                      phase: Phase)
    requires LegalRun(actions, settings, written)
    ensures state.Valid() && Reached(Run(actions, settings), state.View(), phase)
    ensures phase.Stopped? <==> ManagerGone(Run(actions, settings).world.history)
    ensures phase != Crashed ==> (phase.Stopped? <==> state.removedManager)
  {
    StopsExactlyWithoutManager(actions, settings, written);
    LegalIsPossible(INITIAL, actions, settings, written);
    state := new State(settings);
    phase := RunWithConnection(state, actions);
  }
}
