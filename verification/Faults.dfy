/** Why a type goes missing from what is published: only because a pipe for it could not be made, or broke. */
module Faults {
  import opened Protocol
  import opened PipeReader
  import opened History
  import opened ClientSpec
  import opened ClientInvariant
  import opened Resolution
  import opened ClientRuns
  import opened ClientTheorems

  /** Not every attempt to make a pipe for the type turns out well. */
  ghost predicate Hindered(env: Env, m: Mime) {
    exists n, ty :: !env.open(n, ty, m).Opened?
  }

  /** A pipe for the type cannot be made in this step, or is the one that breaks. */
  ghost predicate Fails(c: Client, a: Action, m: Mime) {
    match a
    case Events(_, env) => Hindered(env, m)
    case RoundtripDone(_, env) => Hindered(env, m)
    case PipeReady(n, ty, i, d) =>
      d.Broken? && CanRead(c.world, n, ty, i) && At(c.world, n, ty).value.reader.pipes[i].mime == m
  }

  /** The types of all pipes that failed in a run. */
  ghost function Failed(actions: seq<Action>, st: Settings): iset<Mime> {
    if actions == [] then iset{}
    else
      var front, last := actions[..|actions| - 1], actions[|actions| - 1];
      Failed(front, st) + iset m | Fails(Run(front, st), last, m)
  }

  /** Nothing is held against a type outside of `bad`, neither now nor in what was published. */
  ghost predicate OnlyFaults(w: World, bad: iset<Mime>) {
    && (forall f :: f in w.faults ==> f.1 in bad)
    && (forall p, m :: p in w.published && m in p.faulty ==> m in bad)
  }

  ghost function Unopened(env: Env): iset<Mime> {
    iset m | Hindered(env, m)
  }

  lemma {:induction false} DispatchedFaults(w: World, batch: seq<Event>, st: Settings, env: Env)
    ensures var w' := DispatchAll(w, batch, st, env); w'.faults == w.faults && w'.published == w.published
  {
    if batch != [] {
      DispatchedFaults(w, batch[..|batch| - 1], st, env);
      LedgersGrow(DispatchAll(w, batch[..|batch| - 1], st, env), batch[|batch| - 1], st, env);
    }
  }

  lemma PreparedFaults(w: World, n: SeatName, ty: SelectionType, st: Settings, env: Env)
    ensures var w' := Prepare(w, n, ty, st, env).0;
            w'.published == w.published && forall f :: f in w'.faults ==> f in w.faults || f.1 in Unopened(env)
  {
    if IsReading(w, n, ty) {
      CreatePipesOutcomes(env.typeOrder(At(w, n, ty).value.unique), OpenFor(env, n, ty), st);
    }
  }

  lemma {:induction false} PreparedAllFaults(w: World, slots: seq<Slot>, st: Settings, env: Env, bad: iset<Mime>)
    requires OnlyFaults(w, bad) && Unopened(env) <= bad
    ensures OnlyFaults(PrepareAll(w, slots, st, env).0, bad)
  {
    if slots != [] {
      var last := slots[|slots| - 1];
      PreparedAllFaults(w, slots[..|slots| - 1], st, env, bad);
      PreparedFaults(PrepareAll(w, slots[..|slots| - 1], st, env).0, last.seat, last.ty, st, env);
    }
  }

  lemma {:induction false} ResolvedFaults(w: World, awaiting: seq<Awaiting>)
    requires ResolveAll(w, awaiting).Continues?
    ensures var w' := ResolveAll(w, awaiting).world; w'.faults == w.faults && w'.published == w.published
  {
    if awaiting != [] {
      ResolvedFaults(w, awaiting[..|awaiting| - 1]);
    }
  }

  lemma AnnouncedFaults(w: World, n: SeatName, ty: SelectionType, ordered: seq<Mime>, data: map<Mime, Bytes>,
                        bad: iset<Mime>)
    requires n in w.seats && OnlyFaults(w, bad)
    ensures OnlyFaults(SetClipboard(w, n, ty, ordered, data), bad)
  {
  }

  lemma {:induction false} PublishedFaults(w: World, slots: seq<Slot>, bad: iset<Mime>)
    requires OnlyFaults(w, bad)
    ensures OnlyFaults(PublishAll(w, slots), bad)
  {
    if slots != [] {
      var w1, last := PublishAll(w, slots[..|slots| - 1]), slots[|slots| - 1];
      PublishedFaults(w, slots[..|slots| - 1], bad);
      var s := At(w1, last.seat, last.ty);
      if s.Some? && s.value.GotData? {
        AnnouncedFaults(w1, last.seat, last.ty, s.value.ordered, s.value.data, bad);
      }
    }
  }

  lemma TurnFaults(w: World, st: Settings, env: Env, bad: iset<Mime>)
    requires OnlyFaults(w, bad) && Unopened(env) <= bad
    ensures OnlyFaults(TakeTurn(w, st, env).world, bad)
  {
    var slots := Slots(env.order(w.seats.Keys));
    PreparedAllFaults(w, slots, st, env, bad);
    var w1 := PrepareAll(w, slots, st, env).0;
    PublishedFaults(w1, Slots(env.order(w1.seats.Keys)), bad);
  }

  lemma BatchFaults(c: Client, a: Action, st: Settings, bad: iset<Mime>)
    requires Enabled(c, a) && !a.PipeReady? && OnlyFaults(c.world, bad) && Unopened(a.env) <= bad
    ensures OnlyFaults(Apply(c, a, st).world, bad)
  {
    var w1 := DispatchAll(c.world, a.batch, st, a.env);
    DispatchedFaults(c.world, a.batch, st, a.env);
    if a.Events? {
      TurnFaults(w1, st, a.env, bad);
    } else if ResolveAll(w1, c.phase.awaiting).Continues? {
      ResolvedFaults(w1, c.phase.awaiting);
      var w2 := ResolveAll(w1, c.phase.awaiting).world;
      TurnFaults(w2, st, a.env, bad);
      PublishedFaults(w2, Slots(a.env.order(w2.seats.Keys)), bad);
    }
  }

  lemma DeliveredFaults(w: World, n: SeatName, ty: SelectionType, i: nat, d: Delivery, st: Settings, bad: iset<Mime>)
    requires CanRead(w, n, ty, i) && OnlyFaults(w, bad) && Deliver(w, n, ty, i, d, st).Continues?
    requires d.Broken? ==> At(w, n, ty).value.reader.pipes[i].mime in bad
    ensures OnlyFaults(Deliver(w, n, ty, i, d, st).world, bad)
  {
    var s := At(w, n, ty).value;
    var step := Wake(s.reader, i, d, st);
    var w1 := if d.Broken? then NoteFault(w, n, ty, s.reader.pipes[i].mime) else w;
    assert OnlyFaults(w1, bad) && w1.seats == w.seats;
    if step.verdict.Complete? {
      AnnouncedFaults(w1, n, ty, s.ordered, Collect(step.reader.pipes).value, bad);
    }
  }

  lemma {:induction false} RunFaults(actions: seq<Action>, st: Settings, written: Content)
    requires LegalRun(actions, st, written)
    ensures OnlyFaults(Run(actions, st).world, Failed(actions, st))
  {
    if actions != [] {
      var front, a := actions[..|actions| - 1], actions[|actions| - 1];
      RunFaults(front, st, written);
      RunsAreOk(front, st, written);
      var c := Run(front, st);
      var bad := Failed(actions, st);
      assert forall m :: Fails(c, a, m) ==> m in bad;
      if a.PipeReady? {
        DeliverOk(c.world, a.seat, a.ty, a.pipe, a.delivery, st, written);
        DeliveredFaults(c.world, a.seat, a.ty, a.pipe, a.delivery, st, bad);
      } else {
        BatchFaults(c, a, st, bad);
      }
    }
  }

  /** In every run, what was advertised and is wanted is offered again, unless a pipe for that type failed. */
  lemma TypesAreLostOnlyToFailures(actions: seq<Action>, st: Settings, written: Content, p: Publication)
    requires LegalRun(actions, st, written) && p in Run(actions, st).world.published
    ensures Origin(p.history, p.seat, p.ty).Some?
    ensures var advertised := Advertised(p.history, Origin(p.history, p.seat, p.ty).value);
            forall m :: m in advertised && (st.requestIgnored || m != "SAVE_TARGETS") && m !in p.offered ==>
              m in Failed(actions, st)
  {
    RunFaults(actions, st, written);
    EveryPublicationIsFaithful(actions, st, written, p);
    KeepFacts(Advertised(p.history, Origin(p.history, p.seat, p.ty).value), p.data.Keys);
  }
}
