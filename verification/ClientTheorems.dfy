/** What the invariant of the client means for whoever uses the clipboard. */
module ClientTheorems {
  import opened Protocol
  import opened MimeAccounting
  import opened PipeReader
  import opened History
  import opened ClientSpec
  import opened ClientInvariant
  import opened Resolution
  import opened ClientRuns

  // ----- publications -----

  lemma {:induction false} KeepFacts(ms: seq<Mime>, keys: set<Mime>)
    ensures forall m :: m in Keep(ms, keys) <==> m in ms && m in keys
    ensures Elements(ms) <= keys ==> Keep(ms, keys) == ms
  {
    if ms != [] {
      var front, m := ms[..|ms| - 1], ms[|ms| - 1];
      assert ms == front + [m];
      KeepFacts(front, keys);
      assert Elements(ms) == Elements(front) + {m};
    }
  }

  /** `picked` is the list without the types that are not among `keys`: each position of it stands for a
      position of the list, in the same order, and each position of the list with a key is stood for. */
  predicate PicksInOrder(picked: seq<Mime>, ms: seq<Mime>, keys: set<Mime>, index: seq<nat>) {
    && |index| == |picked|
    && (forall i :: 0 <= i < |index| ==> index[i] < |ms| && ms[index[i]] == picked[i] && picked[i] in keys)
    && (forall i, j :: 0 <= i < j < |index| ==> index[i] < index[j])
    && (forall k :: 0 <= k < |ms| && ms[k] in keys ==> k in index)
  }

  lemma {:induction false} KeepPicks(ms: seq<Mime>, keys: set<Mime>) returns (index: seq<nat>)
    ensures PicksInOrder(Keep(ms, keys), ms, keys, index)
  {
    if ms == [] {
      index := [];
    } else {
      var last := |ms| - 1;
      var front := KeepPicks(ms[..last], keys);
      PicksOneMore(Keep(ms[..last], keys), ms[..last], ms[last], keys, front);
      assert ms == ms[..last] + [ms[last]];
      index := if ms[last] in keys then front + [last] else front;
    }
  }

  lemma PicksOneMore(picked: seq<Mime>, ms: seq<Mime>, m: Mime, keys: set<Mime>, index: seq<nat>)
    requires PicksInOrder(picked, ms, keys, index)
    ensures m in keys ==> PicksInOrder(picked + [m], ms + [m], keys, index + [|ms|])
    ensures m !in keys ==> PicksInOrder(picked, ms + [m], keys, index)
  {
    forall k | 0 <= k < |ms + [m]| && (ms + [m])[k] in keys && (k < |ms| || m !in keys) ensures k in index {
      assert ms[k] in keys;
    }
    assert |ms| in index + [|ms|];
  }

  /** End to end. In every run, whatever the order of events, chunks and restarts, each publication
      is of the offer named by the most recent selection event of its seat and type, made while no
      offer of the seat was unresolved. It offers what that client advertised, in order, without the
      skipped and faulty types, and stores for each offered type exactly the bytes that client wrote. */
  lemma EveryPublicationIsFaithful(actions: seq<Action>, st: Settings, written: Content, p: Publication)
    requires LegalRun(actions, st, written) && p in Run(actions, st).world.published
    ensures Within(p.history, Run(actions, st).world.history)
    ensures Unresolved(p.history, p.seat) == {}
    ensures Origin(p.history, p.seat, p.ty).Some?
    ensures var o := Origin(p.history, p.seat, p.ty).value;
            var advertised := Advertised(p.history, o);
            && Welcome(advertised, st)
            && p.offered == Keep(advertised, p.data.Keys)
            && p.data.Keys == (set m | m in advertised && (st.requestIgnored || m != "SAVE_TARGETS") && m !in p.faulty)
            && (forall m :: m in p.data ==> p.data[m] == written(o, m))
            && p.data != map[]
  {
    RunsAreOk(actions, st, written);
    assert PublicationOk(p, st, written);
  }

  /** The offered list keeps the order and the repetitions of what was advertised, without the types that
      there is no data for. */
  lemma OfferedInOrder(actions: seq<Action>, st: Settings, written: Content, p: Publication)
    requires LegalRun(actions, st, written) && p in Run(actions, st).world.published
    ensures Origin(p.history, p.seat, p.ty).Some?
    ensures var advertised := Advertised(p.history, Origin(p.history, p.seat, p.ty).value);
            exists index :: PicksInOrder(p.offered, advertised, p.data.Keys, index)
  {
    EveryPublicationIsFaithful(actions, st, written, p);
    var index := KeepPicks(Advertised(p.history, Origin(p.history, p.seat, p.ty).value), p.data.Keys);
  }

  /** All or nothing. With `ignoreOnError`, or when nothing went wrong, the whole advertised sequence
      is offered again, but for the one type that is skipped. The offered types are always the types
      of the stored data, and there is at least one. */
  lemma PublicationIsAllOrNothing(actions: seq<Action>, st: Settings, written: Content, p: Publication)
    requires LegalRun(actions, st, written) && p in Run(actions, st).world.published
    ensures Elements(p.offered) == p.data.Keys && p.offered != []
    ensures st.ignoreOnError ==> p.faulty == {}
    ensures Origin(p.history, p.seat, p.ty).Some?
    ensures var advertised := Advertised(p.history, Origin(p.history, p.seat, p.ty).value);
            && (p.faulty == {} ==>
                  p.data.Keys == set m | m in advertised && (st.requestIgnored || m != "SAVE_TARGETS"))
            && (p.faulty == {} && (st.requestIgnored || "SAVE_TARGETS" !in advertised) ==> p.offered == advertised)
  {
    EveryPublicationIsFaithful(actions, st, written, p);
    RunsAreOk(actions, st, written);
    assert PublicationOk(p, st, written);
    var advertised := Advertised(p.history, Origin(p.history, p.seat, p.ty).value);
    KeepAll(advertised, p.data.Keys);
  }

  lemma KeepAll(ms: seq<Mime>, keys: set<Mime>)
    requires keys != {} && forall m :: m in keys ==> m in ms
    ensures Elements(Keep(ms, keys)) == keys && Keep(ms, keys) != []
    ensures (forall m :: m in ms ==> m in keys) ==> Keep(ms, keys) == ms
  {
    KeepFacts(ms, keys);
    var m :| m in keys;
    assert m in Keep(ms, keys);
  }

  /** The memory cap: wherever a run is suspended, the names and buffers of a selection whose pipes
      are being read stay within the limit, and the shared counter is their exact sum. */
  lemma MemoryIsCapped(actions: seq<Action>, st: Settings, written: Content, n: SeatName, ty: SelectionType)
    requires LegalRun(actions, st, written)
    requires At(Run(actions, st).world, n, ty).Some? && At(Run(actions, st).world, n, ty).value.GotPipes?
    ensures var s := At(Run(actions, st).world, n, ty).value;
            var names := NameBytes(Elements(s.ordered));
            && s.reader.bytesRead == names + Sum(s.reader.pipes, Buffered)
            && (st.limit.Some? ==> s.reader.bytesRead <= st.limit.value)
            && s.reader.succeeded + s.reader.failed == Sum(s.reader.pipes, IsFinished) < |s.reader.pipes|
  {
    RunsAreOk(actions, st, written);
    var w := Run(actions, st).world;
    assert SelectionOk(w.history, w.out, w.faults, n, ty, At(w, n, ty).value, st, written);
    SumOfFinished(At(w, n, ty).value.reader.pipes);
  }

  /** When the program waits for events, no selection is left over for the resolution loop, and every
      pipe that is being read was requested from the offer of the most recent selection event. */
  lemma IdleMeansResolved(actions: seq<Action>, st: Settings, written: Content, n: SeatName, ty: SelectionType)
    requires LegalRun(actions, st, written) && Run(actions, st).phase.Idle?
    ensures var w := Run(actions, st).world;
            && (n in w.seats && st.Enabled(ty) ==>
                  At(w, n, ty).Some? && var s := At(w, n, ty).value; s.Waiting? || s.GotPipes? || s.GotData?)
            && (At(w, n, ty).Some? && At(w, n, ty).value.GotPipes? ==>
                  Origin(w.history, n, ty).Some? &&
                  forall p :: p in At(w, n, ty).value.reader.pipes ==>
                    Receive(Origin(w.history, n, ty).value, p.mime, p.fd) in w.out)
  {
    RunsAreOk(actions, st, written);
    var w := Run(actions, st).world;
    assert Settled(w, n, ty) && SeatOk(w, n, st);
    if At(w, n, ty).Some? && At(w, n, ty).value.GotPipes? {
      var s := At(w, n, ty).value;
      assert SelectionOk(w.history, w.out, w.faults, n, ty, s, st, written);
      var o := Origin(w.history, n, ty).value;
      forall p | p in s.reader.pipes ensures Receive(o, p.mime, p.fd) in w.out {
        assert PipeOk(p, o, s.ordered, w.out, FaultyOf(w.faults, o), st, written);
      }
    }
  }

  // ----- the panic -----

  /** The `unreachable!()` of the resolution loop is reached exactly when the dispatched batch
      announces a seat anew under the name of a seat with waiting pipes, and leaves it there without
      a selection event of that type. Otherwise an unflagged selection is still the one that was
      being read. */
  lemma PanicsExactly(c: Client, batch: seq<Event>, env: Env, st: Settings, written: Content)
    requires ClientOk(c, st, written) && c.phase.InRoundtrip? && Legal(c, RoundtripDone(batch, env), written)
    requires !DispatchAll(c.world, batch, st, env).managerRemoved
    ensures Apply(c, RoundtripDone(batch, env), st).phase.Crashed? <==>
            exists a :: a in c.phase.awaiting && AddedAnew(batch, a.seat, a.ty)
  {
    var awaiting := c.phase.awaiting;
    var w1 := DispatchAll(c.world, batch, st, env);
    DispatchAllOk(c.world, batch, awaiting, st, env, written);
    ResolveAllOk(w1, awaiting, st, written);
    forall a | a in awaiting
      ensures a.seat in w1.seats && !Flag(w1, a.seat, a.ty) && !IsReading(w1, a.seat, a.ty) <==>
              AddedAnew(batch, a.seat, a.ty)
    {
      assert Fits(c.world, a, st, written);
      ReadingSlotAfter(c.world, batch, a.seat, a.ty, st, env);
    }
    if ResolveAll(w1, awaiting).Continues? && AnyFlag(w1) {
      assert Apply(c, RoundtripDone(batch, env), st) == TakeTurn(ResolveAll(w1, awaiting).world, st, env);
    }
  }

  lemma {:induction false} NothingAddedAnew(batch: seq<Event>, n: SeatName, ty: SelectionType)
    requires forall e :: e in batch ==> !AddsSeat(e, n)
    ensures !AddedAnew(batch, n, ty)
  {
    if batch != [] {
      var front := batch[..|batch| - 1];
      assert forall e :: e in front ==> e in batch;
      NothingAddedAnew(front, n, ty);
    }
  }

  /** No seat whose pipes wait for the roundtrip is added again before the answer. */
  ghost predicate AddsNoWaitingSeat(c: Client, a: Action) {
    a.RoundtripDone? && c.phase.InRoundtrip? ==>
      forall e, w :: e in a.batch && w in c.phase.awaiting ==> !AddsSeat(e, w.seat)
  }

  /** A step that adds no waiting seat never makes the client panic, whatever kind of step it is. */
  lemma NoPanicWithoutNewSeats(c: Client, a: Action, st: Settings, written: Content)
    requires ClientOk(c, st, written) && Legal(c, a, written) && AddsNoWaitingSeat(c, a)
    ensures Apply(c, a, st).phase != Crashed
  {
    match a
    case Events(_, _) =>
    case PipeReady(n, ty, i, d) => DeliverOk(c.world, n, ty, i, d, st, written);
    case RoundtripDone(batch, env) =>
      if !DispatchAll(c.world, batch, st, env).managerRemoved {
        PanicsExactly(c, batch, env, st, written);
        forall w | w in c.phase.awaiting ensures !AddedAnew(batch, w.seat, w.ty) {
          NothingAddedAnew(batch, w.seat, w.ty);
        }
      }
  }

  /** It does happen: while pipes wait for the roundtrip, one more announcement of their seat is enough. */
  lemma ReannouncedSeatPanics(c: Client, a: Awaiting, env: Env, st: Settings, written: Content)
    requires ClientOk(c, st, written) && c.phase.InRoundtrip? && a in c.phase.awaiting && EnvOk(env)
    requires !c.world.managerRemoved
    ensures Apply(c, RoundtripDone([SeatAdded(a.seat, true)], env), st).phase == Crashed
  {
    var e := SeatAdded(a.seat, true);
    var batch := [e];
    assert batch[..0] == [] && AddedAnew(batch, a.seat, a.ty);
    assert FreshOffers(c.world.history, batch);
    assert DispatchAll(c.world, batch, st, env) == Dispatch(c.world, e, st, env);
    PanicsExactly(c, batch, env, st, written);
  }

  // ----- the loop repeats only for a reason -----

  /** Flags are raised by selection events of enabled types only. */
  lemma {:induction false} FlagsComeFromSelections(w: World, batch: seq<Event>, n: SeatName, ty: SelectionType,
                                                   st: Settings, env: Env)
    requires !Flag(w, n, ty) && Flag(DispatchAll(w, batch, st, env), n, ty)
    requires n in w.seats ==> (At(w, n, ty).Some? <==> st.Enabled(ty))
    ensures st.Enabled(ty) && exists e :: e in batch && Selects(e, n, ty)
    decreases |batch|
  {
    if batch != [] {
      var front, e := batch[..|batch| - 1], batch[|batch| - 1];
      assert batch == front + [e];
      var w1 := DispatchAll(w, front, st, env);
      SlotEffect(w1, e, n, ty, st, env);
      if Flag(w1, n, ty) {
        FlagsComeFromSelections(w, front, n, ty, st, env);
        var x :| x in front && Selects(x, n, ty);
        assert x in batch;
      } else {
        EnabledStays(w, front, n, ty, st, env);
        assert e in batch;
      }
    }
  }

  lemma {:induction false} EnabledStays(w: World, batch: seq<Event>, n: SeatName, ty: SelectionType, st: Settings,
                                        env: Env)
    requires n in w.seats ==> (At(w, n, ty).Some? <==> st.Enabled(ty))
    ensures var w' := DispatchAll(w, batch, st, env); n in w'.seats ==> (At(w', n, ty).Some? <==> st.Enabled(ty))
  {
    if batch != [] {
      EnabledStays(w, batch[..|batch| - 1], n, ty, st, env);
      SlotEffect(DispatchAll(w, batch[..|batch| - 1], st, env), batch[|batch| - 1], n, ty, st, env);
    }
  }

  /** Termination of the resolution loop: it asks for another roundtrip only if the last one brought a
      selection event of an enabled type. */
  lemma RepeatsOnlyForNewSelections(c: Client, batch: seq<Event>, env: Env, st: Settings, written: Content)
    requires ClientOk(c, st, written) && c.phase.InRoundtrip? && Legal(c, RoundtripDone(batch, env), written)
    requires Apply(c, RoundtripDone(batch, env), st).phase.InRoundtrip?
    ensures exists e :: e in batch && e.Selected? && st.Enabled(e.ty)
  {
    var w1 := DispatchAll(c.world, batch, st, env);
    assert AnyFlag(w1);
    var n :| n in w1.seats && (w1.seats[n].gotNew.regular || w1.seats[n].gotNew.primary);
    var ty := if w1.seats[n].gotNew.regular then Regular else Primary;
    assert SeatOk(c.world, n, st);
    FlagsComeFromSelections(c.world, batch, n, ty, st, env);
  }

  /** The selection events of enabled types in a batch. */
  function SelectionsIn(batch: seq<Event>, st: Settings): nat {
    if batch == [] then 0
    else
      var last := batch[|batch| - 1];
      SelectionsIn(batch[..|batch| - 1], st) + if last.Selected? && st.Enabled(last.ty) then 1 else 0
  }

  lemma {:induction false} SelectionsCount(batch: seq<Event>, e: Event, st: Settings)
    requires e in batch && e.Selected? && st.Enabled(e.ty)
    ensures SelectionsIn(batch, st) > 0
  {
    if e != batch[|batch| - 1] {
      SelectionsCount(batch[..|batch| - 1], e, st);
    }
  }

  /** All selection events of enabled types that are dispatched in the roundtrips of a run. */
  function SelectionsOf(actions: seq<Action>, st: Settings): nat {
    if actions == [] then 0
    else
      var last := actions[|actions| - 1];
      SelectionsOf(actions[..|actions| - 1], st) + if last.RoundtripDone? then SelectionsIn(last.batch, st) else 0
  }

  /** Roundtrips without anything in between: each but the first is owed to a selection event of an enabled
      type that was dispatched in an earlier one of them. */
  lemma {:induction false} RoundtripsAreFew(c: Client, actions: seq<Action>, st: Settings, written: Content)
    requires ClientOk(c, st, written) && c.phase.InRoundtrip? && LegalFrom(c, actions, st, written)
    requires forall i :: 0 <= i < |actions| ==> actions[i].RoundtripDone?
    ensures |actions| <= 1 + SelectionsOf(actions, st)
    ensures Follow(c, actions, st).phase.InRoundtrip? ==> |actions| <= SelectionsOf(actions, st)
  {
    if actions != [] {
      var front, last := actions[..|actions| - 1], actions[|actions| - 1];
      RoundtripsAreFew(c, front, st, written);
      FollowOk(c, front, st, written);
      var c1 := Follow(c, front, st);
      assert c1.phase.InRoundtrip?;
      if Apply(c1, last, st).phase.InRoundtrip? {
        RepeatsOnlyForNewSelections(c1, last.batch, last.env, st, written);
        var e :| e in last.batch && e.Selected? && st.Enabled(e.ty);
        SelectionsCount(last.batch, e, st);
      }
    }
  }

  // ----- selections that the loop leaves alone -----

  predicate TouchedIn(batch: seq<Event>, n: SeatName, ty: SelectionType) {
    exists e :: e in batch && Touches(e, n, ty)
  }

  lemma {:induction false} HeldThroughDispatch(w: World, batch: seq<Event>, n: SeatName, ty: SelectionType,
                                               st: Settings, env: Env)
    requires !TouchedIn(batch, n, ty)
    ensures SameButMarks(At(w, n, ty), At(DispatchAll(w, batch, st, env), n, ty))
  {
    if batch != [] {
      var front, e := batch[..|batch| - 1], batch[|batch| - 1];
      assert e in batch && forall x :: x in front ==> x in batch;
      HeldThroughDispatch(w, front, n, ty, st, env);
      SlotEffect(DispatchAll(w, front, st, env), e, n, ty, st, env);
    }
  }

  /** A selection that is being read keeps its pipes. */
  lemma {:induction false} FdsStay(w: World, batch: seq<Event>, n: SeatName, ty: SelectionType, st: Settings, env: Env)
    requires IsReading(w, n, ty) && !TouchedIn(batch, n, ty)
    ensures var w' := DispatchAll(w, batch, st, env);
            IsReading(w', n, ty) && At(w', n, ty).value.fds.Keys == At(w, n, ty).value.fds.Keys
  {
    if batch != [] {
      var front, e := batch[..|batch| - 1], batch[|batch| - 1];
      assert e in batch && forall x :: x in front ==> x in batch;
      FdsStay(w, front, n, ty, st, env);
      MarksGrow(DispatchAll(w, front, st, env), e, n, ty, st, env);
    }
  }

  lemma PrepareFrame(w: World, m: SeatName, tz: SelectionType, st: Settings, env: Env, n: SeatName, ty: SelectionType)
    ensures var w' := Prepare(w, m, tz, st, env).0;
            w'.published == w.published && (Settled(w, n, ty) || m != n || tz != ty ==> At(w', n, ty) == At(w, n, ty))
  {
  }

  lemma {:induction false} PrepareAllFrame(w: World, slots: seq<Slot>, st: Settings, env: Env, n: SeatName,
                                           ty: SelectionType)
    requires Settled(w, n, ty)
    ensures var w' := PrepareAll(w, slots, st, env).0; w'.published == w.published && At(w', n, ty) == At(w, n, ty)
  {
    if slots != [] {
      var last := slots[|slots| - 1];
      PrepareAllFrame(w, slots[..|slots| - 1], st, env, n, ty);
      PrepareFrame(PrepareAll(w, slots[..|slots| - 1], st, env).0, last.seat, last.ty, st, env, n, ty);
    }
  }

  lemma ResolveFrame(w: World, a: Awaiting, n: SeatName, ty: SelectionType)
    requires Settled(w, n, ty)
    ensures match Resolve(w, a) case Panicked => true
            case Continues(w') => w'.published == w.published && At(w', n, ty) == At(w, n, ty)
  {
  }

  lemma {:induction false} ResolveAllFrame(w: World, awaiting: seq<Awaiting>, n: SeatName, ty: SelectionType)
    requires Settled(w, n, ty)
    ensures match ResolveAll(w, awaiting) case Panicked => true
            case Continues(w') => w'.published == w.published && At(w', n, ty) == At(w, n, ty)
  {
    if awaiting != [] {
      ResolveAllFrame(w, awaiting[..|awaiting| - 1], n, ty);
      if ResolveAll(w, awaiting[..|awaiting| - 1]).Continues? {
        ResolveFrame(ResolveAll(w, awaiting[..|awaiting| - 1]).world, awaiting[|awaiting| - 1], n, ty);
      }
    }
  }

  // ----- the environment -----

  ghost function Listed<T(!new)>(s: set<T>): (l: seq<T>)
    ensures Lists(l, s)
    decreases |s|
  {
    if s == {} then []
    else
      var x :| x in s;
      var l := Listed(s - {x});
      assert forall y :: y in l <==> y in Elements(l);
      l + [x]
  }

  /** The assumptions on the environment can be met, whatever becomes of the pipes. */
  lemma EnvironmentsExist(open: (SeatName, SelectionType, Mime) -> PipeOutcome)
    ensures exists env :: EnvOk(env) && env.open == open
  {
    var env := Env((s: set<nat>) => Listed(s), (s: set<Mime>) => Listed(s), open);
    assert EnvOk(env);
  }
}
