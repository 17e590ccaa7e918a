/** Whole runs of the client against an arbitrary environment. */
module ClientRuns {
  import opened Protocol
  import opened MimeAccounting
  import opened PipeReader
  import opened History
  import opened ClientSpec
  import opened ClientInvariant
  import opened Resolution

  // ----- publication -----

  /** The selection has all its data, and it is the data of its offer. */
  ghost predicate ReadyToPublish(w: World, n: SeatName, ty: SelectionType, ordered: seq<Mime>, data: map<Mime, Bytes>,
                                 st: Settings, written: Content) {
    var origin := Origin(w.history, n, ty);
    && n in w.seats && w.seats[n].offers == map[]
    && At(w, n, ty).Some? && !At(w, n, ty).value.ReadMimes?
    && origin.Some?
    && ordered == Advertised(w.history, origin.value) && Welcome(ordered, st)
    && DataOk(data, origin.value, ordered, FaultyOf(w.faults, origin.value), st, written)
  }

  lemma SetClipboardOnly(w: World, n: SeatName, ty: SelectionType, ordered: seq<Mime>, data: map<Mime, Bytes>)
    requires At(w, n, ty).Some?
    ensures var w' := SetClipboard(w, n, ty, ordered, data);
            OnlySlot(w, w', n, ty) && At(w', n, ty) == Some(Waiting) && w'.faults == w.faults
  {
  }

  /** Publishing is right: see `PublicationOk` for what is promised. */
  lemma SetClipboardPublishes(w: World, n: SeatName, ty: SelectionType, ordered: seq<Mime>, data: map<Mime, Bytes>,
                              st: Settings, written: Content)
    requires SeatOk(w, n, st) && ReadyToPublish(w, n, ty, ordered, data, st, written)
    requires PublicationsOk(w, st, written)
    ensures var w' := SetClipboard(w, n, ty, ordered, data);
            PublicationsOk(w', st, written) && |w'.published| == |w.published| + 1
  {
    var w' := SetClipboard(w, n, ty, ordered, data);
    var p := w'.published[|w.published|];
    var o := Origin(w.history, n, ty).value;
    assert w'.published == w.published + [p];
    assert p.faulty == FaultyOf(w.faults, o);
    assert Unresolved(w.history, n) == {};
    assert PublicationOk(p, st, written);
  }

  /** Nothing is held back without need. */
  predicate Posted(w: World, n: SeatName, ty: SelectionType) {
    At(w, n, ty).Some? && At(w, n, ty).value.GotData? ==> w.seats[n].offers != map[]
  }

  lemma PublishOk(w: World, n: SeatName, ty: SelectionType, st: Settings, written: Content)
    requires WorldOk(w, st, written)
    ensures var w' := Publish(w, n, ty);
            WorldOk(w', st, written) && OnlySlot(w, w', n, ty) && w'.faults == w.faults && Posted(w', n, ty) &&
            (Settled(w, n, ty) ==> Settled(w', n, ty)) && (Posted(w, n, ty) ==> w' == w)
  {
    var w' := Publish(w, n, ty);
    if !Posted(w, n, ty) {
      var s := At(w, n, ty).value;
      assert SelectionOk(w.history, w.out, w.faults, n, ty, s, st, written);
      assert SeatOk(w, n, st);
      SetClipboardOnly(w, n, ty, s.ordered, s.data);
      SetClipboardPublishes(w, n, ty, s.ordered, s.data, st, written);
      OnlySlotOk(w, w', n, ty, st, written);
    }
  }

  /** The slots seen so far hold nothing back, and no slot waits for the resolution loop. */
  ghost predicate PostedUpTo(w: World, w': World, slots: seq<Slot>) {
    && w'.history == w.history && w'.seats.Keys == w.seats.Keys
    && (forall n :: n in w.seats ==> w'.seats[n].offers == w.seats[n].offers)
    && (forall n, ty :: Settled(w', n, ty))
    && (forall n, ty :: Slot(n, ty) in slots ==> Posted(w', n, ty))
  }

  lemma PostedStep(w: World, w1: World, w2: World, front: seq<Slot>, last: Slot)
    requires PostedUpTo(w, w1, front)
    requires OnlySlot(w1, w2, last.seat, last.ty) && Settled(w2, last.seat, last.ty) && Posted(w2, last.seat, last.ty)
    ensures PostedUpTo(w, w2, front + [last])
  {
    forall n, ty
      ensures Settled(w2, n, ty)
      ensures Slot(n, ty) in front + [last] ==> Posted(w2, n, ty)
    {
      if n != last.seat || ty != last.ty {
        assert At(w2, n, ty) == At(w1, n, ty);
        assert Settled(w1, n, ty);
        assert Slot(n, ty) in front + [last] ==> Slot(n, ty) in front;
      }
    }
  }

  lemma {:induction false} PublishAllOk(w: World, slots: seq<Slot>, st: Settings, written: Content)
    requires WorldOk(w, st, written)
    requires forall n, ty :: Settled(w, n, ty)
    ensures var w' := PublishAll(w, slots);
            WorldOk(w', st, written) && PostedUpTo(w, w', slots)
  {
    if slots != [] {
      var front, last := slots[..|slots| - 1], slots[|slots| - 1];
      assert slots == front + [last];
      PublishAllOk(w, front, st, written);
      var w1 := PublishAll(w, front);
      PublishOk(w1, last.seat, last.ty, st, written);
      PostedStep(w, w1, PublishAll(w, slots), front, last);
    }
  }

  // ----- reading -----

  /** What is written to each pipe of a selection. */
  ghost function Contents(pipes: seq<PipeRecord>, o: OfferId, written: Content): seq<Bytes> {
    seq(|pipes|, i requires 0 <= i < |pipes| => written(o, pipes[i].mime))
  }

  /** The delivery is one that the client at the other end of the pipe has caused. */
  ghost predicate Genuine(w: World, n: SeatName, ty: SelectionType, i: nat, d: Delivery, written: Content)
    requires CanRead(w, n, ty, i)
  {
    var p := At(w, n, ty).value.reader.pipes[i];
    Origin(w.history, n, ty).Some? ==> Deliverable(p, written(Origin(w.history, n, ty).value, p.mime), d)
  }

  lemma {:induction false} CollectOk(pipes: seq<PipeRecord>, o: OfferId, written: Content)
    requires DistinctTypes(pipes) && AllFinished(pipes)
    requires forall i :: 0 <= i < |pipes| ==> RecordOk(pipes[i]) && RecordFaithful(pipes[i], written(o, pipes[i].mime))
    ensures Collect(pipes).Some?
    ensures forall m :: m in Collect(pipes).value <==>
                        exists i :: 0 <= i < |pipes| && pipes[i].mime == m && !pipes[i].buffer.Failed?
    ensures forall m :: m in Collect(pipes).value ==> Collect(pipes).value[m] == written(o, m)
  {
    if pipes != [] {
      var front, last := pipes[..|pipes| - 1], pipes[|pipes| - 1];
      CollectOk(front, o, written);
      forall m | m in Collect(pipes).value
        ensures exists i :: 0 <= i < |pipes| && pipes[i].mime == m && !pipes[i].buffer.Failed?
      {
        if m in Collect(front).value {
          var i :| 0 <= i < |front| && front[i].mime == m && !front[i].buffer.Failed?;
          assert pipes[i].mime == m;
        } else {
          assert pipes[|pipes| - 1].mime == m;
        }
      }
      forall i | 0 <= i < |pipes| && !pipes[i].buffer.Failed?
        ensures pipes[i].mime in Collect(pipes).value
      {
        if i < |front| { assert front[i].mime in Collect(front).value; }
      }
    }
  }

  /** One wake-up keeps the pipes those of the offer. `faulty'` is what is faulty afterwards. */
  lemma WakeKeepsPipesOk(r: Reader, i: nat, d: Delivery, o: OfferId, ordered: seq<Mime>, out: seq<Request>,
                         faulty: set<Mime>, faulty': set<Mime>, names: nat, st: Settings, written: Content)
    requires ReaderOk(r, names, st) && i < |r.pipes| && !r.pipes[i].finished
    requires PipesOk(r.pipes, o, ordered, out, faulty, st, written)
    requires Deliverable(r.pipes[i], written(o, r.pipes[i].mime), d)
    requires faulty' == if d.Broken? then faulty + {r.pipes[i].mime} else faulty
    ensures var s := Wake(r, i, d, st);
            && s.verdict != Unreachable
            && (s.verdict.Pending? || s.verdict.Complete? ==>
                  ReaderOk(s.reader, names, st) && PipesOk(s.reader.pipes, o, ordered, out, faulty', st, written)
                  && (s.verdict.Complete? <==> AllFinished(s.reader.pipes)))
  {
    var s := Wake(r, i, d, st);
    WakeKeepsReaderOk(r, i, d, names, st);
    var content := Contents(r.pipes, o, written);
    assert PipeOk(r.pipes[i], o, ordered, out, faulty, st, written);
    WakeKeepsFaith(r, i, d, content, st);
    if s.verdict.Pending? || s.verdict.Complete? {
      assert s.reader.pipes == r.pipes[i := s.reader.pipes[i]];
      forall k | 0 <= k < |r.pipes|
        ensures PipeOk(s.reader.pipes[k], o, ordered, out, faulty', st, written)
      {
        assert PipeOk(r.pipes[k], o, ordered, out, faulty, st, written);
        assert RecordFaithful(s.reader.pipes[k], content[k]);
      }
      assert Wanted(ordered, faulty', st) <= Wanted(ordered, faulty, st);
      forall m | m in Wanted(ordered, faulty', st)
        ensures exists k :: 0 <= k < |s.reader.pipes| && s.reader.pipes[k].mime == m
      {
        var k :| 0 <= k < |r.pipes| && r.pipes[k].mime == m;
        assert s.reader.pipes[k].mime == m;
      }
    }
  }

  /** Once all pipes are finished, what they hold is exactly what is wanted of the offer. */
  lemma CompleteDataOk(r: Reader, o: OfferId, ordered: seq<Mime>, out: seq<Request>, faulty: set<Mime>, names: nat,
                       st: Settings, written: Content)
    requires ReaderOk(r, names, st) && PipesOk(r.pipes, o, ordered, out, faulty, st, written) && AllFinished(r.pipes)
    ensures Collect(r.pipes).Some?
    ensures Collect(r.pipes).value != map[] ==> DataOk(Collect(r.pipes).value, o, ordered, faulty, st, written)
  {
    forall i | 0 <= i < |r.pipes|
      ensures RecordFaithful(r.pipes[i], written(o, r.pipes[i].mime))
    {
      assert PipeOk(r.pipes[i], o, ordered, out, faulty, st, written);
    }
    CollectOk(r.pipes, o, written);
    var data := Collect(r.pipes).value;
    forall m ensures m in data <==> m in Wanted(ordered, faulty, st) {
      if m in data {
        var i :| 0 <= i < |r.pipes| && r.pipes[i].mime == m && !r.pipes[i].buffer.Failed?;
        assert PipeOk(r.pipes[i], o, ordered, out, faulty, st, written);
      }
      if m in Wanted(ordered, faulty, st) {
        var i :| 0 <= i < |r.pipes| && r.pipes[i].mime == m;
        assert PipeOk(r.pipes[i], o, ordered, out, faulty, st, written);
      }
    }
    assert data.Keys == Wanted(ordered, faulty, st);
  }

  lemma NoteFaultEffect(w: World, n: SeatName, ty: SelectionType, m: Mime)
    requires Active(At(w, n, ty)) && Origin(w.history, n, ty).Some?
    ensures var o := Origin(w.history, n, ty).value;
            var w' := NoteFault(w, n, ty, m);
            && OnlySlot(w, w', n, ty) && w'.published == w.published && w'.out == w.out && w'.seats == w.seats
            && FaultyOf(w'.faults, o) == FaultyOf(w.faults, o) + {m}
  {
    var o := Origin(w.history, n, ty).value;
    var w' := NoteFault(w, n, ty, m);
    assert (o, m) in w'.faults;
    assert forall f :: f in w.faults ==> f in w'.faults;
    assert forall x :: x in FaultyOf(w.faults, o) ==> (o, x) in w.faults;
    assert forall x :: x in FaultyOf(w.faults, o) ==> x in FaultyOf(w'.faults, o);
  }

  lemma UsedOk(w: World, w1: World, n: SeatName, ty: SelectionType, data: map<Mime, Bytes>, st: Settings,
               written: Content)
    requires WorldOk(w, st, written) && OnlySlot(w, w1, n, ty) && w1.seats == w.seats && w1.published == w.published
    requires At(w, n, ty).Some? && At(w, n, ty).value.GotPipes?
    requires data != map[] ==>
               SelectionOk(w1.history, w1.out, w1.faults, n, ty, GotData(At(w, n, ty).value.ordered, data), st, written)
    ensures var w' := Used(w1, n, ty, At(w, n, ty).value.ordered, data);
            WorldOk(w', st, written) && OnlySlot(w, w', n, ty) && Settled(w', n, ty) && Posted(w', n, ty)
  {
    var ordered := At(w, n, ty).value.ordered;
    if data == map[] {
      DeliverSwitches(w, w1, n, ty, Waiting, st, written);
    } else if w1.seats[n].offers == map[] {
      SetClipboardOnly(w1, n, ty, ordered, data);
      assert SeatOk(w, n, st) && SeatOk(w1, n, st);
      SetClipboardPublishes(w1, n, ty, ordered, data, st, written);
      OnlySlotOk(w, SetClipboard(w1, n, ty, ordered, data), n, ty, st, written);
    } else {
      DeliverSwitches(w, w1, n, ty, GotData(ordered, data), st, written);
    }
  }

  /** The result of one delivery, with the ways in which it can come out. */
  lemma DeliverOk(w: World, n: SeatName, ty: SelectionType, i: nat, d: Delivery, st: Settings, written: Content)
    requires WorldOk(w, st, written) && CanRead(w, n, ty, i) && Genuine(w, n, ty, i, d, written)
    ensures Deliver(w, n, ty, i, d, st).Continues?
    ensures var w' := Deliver(w, n, ty, i, d, st).world;
            WorldOk(w', st, written) && OnlySlot(w, w', n, ty) && Settled(w', n, ty) && Posted(w', n, ty)
  {
    var s := At(w, n, ty).value;
    assert SelectionOk(w.history, w.out, w.faults, n, ty, s, st, written);
    assert SeatOk(w, n, st);
    var o := Origin(w.history, n, ty).value;
    var names := NameBytes(Elements(s.ordered));
    var step := Wake(s.reader, i, d, st);
    NoteFaultEffect(w, n, ty, s.reader.pipes[i].mime);
    var w1 := if d.Broken? then NoteFault(w, n, ty, s.reader.pipes[i].mime) else w;
    WakeKeepsPipesOk(s.reader, i, d, o, s.ordered, w.out, FaultyOf(w.faults, o), FaultyOf(w1.faults, o), names, st,
                     written);
    match step.verdict
    case Pending => DeliverSwitches(w, w1, n, ty, s.(reader := step.reader), st, written);
    case Abandoned(_) => DeliverSwitches(w, w1, n, ty, Waiting, st, written);
    case Unreachable =>
    case Complete =>
      CompleteDataOk(step.reader, o, s.ordered, w.out, FaultyOf(w1.faults, o), names, st, written);
      var data := Collect(step.reader.pipes).value;
      UsedOk(w, w1, n, ty, data, st, written);
  }

  lemma DeliverSwitches(w: World, w1: World, n: SeatName, ty: SelectionType, s: Selection, st: Settings,
                        written: Content)
    requires WorldOk(w, st, written) && Active(At(w, n, ty)) && OnlySlot(w, w1, n, ty)
    requires w1.seats == w.seats && w1.published == w.published && !At(w, n, ty).value.ReadMimes?
    requires Active(Some(s)) ==> SelectionOk(w1.history, w1.out, w1.faults, n, ty, s, st, written)
    ensures WorldOk(Put(w1, n, ty, s), st, written) && OnlySlot(w, Put(w1, n, ty, s), n, ty)
    ensures Switch(w1, n, ty, s) == Put(w1, n, ty, s) && At(Put(w1, n, ty, s), n, ty) == Some(s)
  {
    SwitchOnly(w1, n, ty, s);
    OnlySlotOk(w, Put(w1, n, ty, s), n, ty, st, written);
  }

  // ----- the main loop -----

  /** What holds wherever the program is suspended. Idle: no selection event waits to be handled, and
      data are held back only while an offer of the seat is unresolved. */
  ghost predicate ClientOk(c: Client, st: Settings, written: Content) {
    && WorldOk(c.world, st, written)
    && match c.phase
       case Idle => forall n, ty :: Settled(c.world, n, ty) && Posted(c.world, n, ty)
       case InRoundtrip(awaiting) =>
         awaiting != [] && RoundOk(c.world, awaiting, st, written) && AllAwait(c.world, awaiting, st, written)
       case _ => true
  }

  /** At the start of a roundtrip no new selection is flagged and all pipes fit. */
  ghost predicate AllAwait(w: World, awaiting: seq<Awaiting>, st: Settings, written: Content) {
    && (forall a :: a in awaiting ==> Fits(w, a, st, written) && st.Enabled(a.ty))
    && (forall n, ty :: !Flag(w, n, ty))
  }

  lemma {:induction false} ExtendFresh(h: History, batch: seq<Event>)
    requires FreshHistory(h) && FreshOffers(h, batch)
    ensures FreshHistory(Extend(h, batch))
  {
    if batch != [] { ExtendFresh(h, batch[..|batch| - 1]); }
  }

  lemma {:induction false} DispatchAllHistory(w: World, batch: seq<Event>, st: Settings, env: Env)
    ensures DispatchAll(w, batch, st, env).history == Extend(w.history, batch)
    ensures DispatchAll(w, batch, st, env).published == w.published
  {
    if batch != [] {
      DispatchAllHistory(w, batch[..|batch| - 1], st, env);
      LedgersGrow(DispatchAll(w, batch[..|batch| - 1], st, env), batch[|batch| - 1], st, env);
    }
  }

  lemma {:induction false} DispatchAllOk(w: World, batch: seq<Event>, awaiting: seq<Awaiting>, st: Settings,
                                         env: Env, written: Content)
    requires WorldOk(w, st, written) && FreshOffers(w.history, batch) && RoundOk(w, awaiting, st, written)
    ensures var w' := DispatchAll(w, batch, st, env);
            WorldOk(w', st, written) && RoundOk(w', awaiting, st, written)
  {
    if batch != [] {
      var front, e := batch[..|batch| - 1], batch[|batch| - 1];
      DispatchAllOk(w, front, awaiting, st, env, written);
      var w1 := DispatchAll(w, front, st, env);
      DispatchAllHistory(w, front, st, env);
      DispatchOk(w1, e, st, env, written);
      RoundOkLater(w1, DispatchAll(w, batch, st, env), awaiting, e, st, env, written);
    }
  }

  lemma ClearFlagsOk(w: World, slots: seq<Slot>, awaiting: seq<Awaiting>, st: Settings, written: Content)
    requires WorldOk(w, st, written) && Prepared(w, slots, awaiting, st, written)
    requires forall n, ty :: n in w.seats ==> Slot(n, ty) in slots
    ensures var w' := Emit(ClearFlags(w), [Sync]);
            WorldOk(w', st, written) && RoundOk(w', awaiting, st, written) && AllAwait(w', awaiting, st, written)
  {
    var w' := Emit(ClearFlags(w), [Sync]);
    assert forall n, ty :: At(w', n, ty) == At(w, n, ty) && !Flag(w', n, ty);
    forall n ensures SeatOk(w', n, st) {
      assert SeatOk(w, n, st);
    }
    forall n, ty | Active(At(w', n, ty))
      ensures SelectionOk(w'.history, w'.out, w'.faults, n, ty, At(w', n, ty).value, st, written)
    {
      assert SelectionOk(w.history, w.out, w.faults, n, ty, At(w, n, ty).value, st, written);
    }
    forall a | a in awaiting ensures Fits(w', a, st, written) && st.Enabled(a.ty) {
      assert Fits(w, a, st, written);
      assert SeatOk(w, a.seat, st);
    }
    forall n, ty ensures RoundSlotOk(w', awaiting, n, ty) {
      if n in w.seats {
        assert Slot(n, ty) in slots;
        if !Settled(w, n, ty) {
          var a :| a in awaiting && a.seat == n && a.ty == ty;
          assert Fits(w, a, st, written);
        }
      }
    }
  }

  lemma TurnOk(w: World, st: Settings, env: Env, written: Content)
    requires WorldOk(w, st, written) && EnvOk(env)
    requires forall n, ty :: Ripe(w, n, ty)
    ensures ClientOk(TakeTurn(w, st, env), st, written)
  {
    var ns := env.order(w.seats.Keys);
    assert Lists(ns, w.seats.Keys);
    SlotsList(ns);
    PrepareAllOk(w, Slots(ns), st, env, written);
    var (w1, awaiting) := PrepareAll(w, Slots(ns), st, env);
    forall n, ty | n in w.seats ensures Slot(n, ty) in Slots(ns) {
      assert n in Elements(ns);
    }
    if awaiting == [] {
      forall n, ty ensures Settled(w1, n, ty) {
        if n in w1.seats {
          assert Slot(n, ty) in Slots(ns);
          assert Settled(w1, n, ty) || Covered(awaiting, n, ty);
        }
      }
      EndOfTurn(w1, st, env, written);
    } else {
      ClearFlagsOk(w1, Slots(ns), awaiting, st, written);
    }
  }

  lemma EndOfTurn(w: World, st: Settings, env: Env, written: Content)
    requires WorldOk(w, st, written) && EnvOk(env)
    requires forall n, ty :: Settled(w, n, ty)
    ensures ClientOk(Client(PublishAll(w, Slots(env.order(w.seats.Keys))), Idle), st, written)
  {
    var ns := env.order(w.seats.Keys);
    assert Lists(ns, w.seats.Keys);
    SlotsList(ns);
    PublishAllOk(w, Slots(ns), st, written);
    var w' := PublishAll(w, Slots(ns));
    forall n, ty ensures Posted(w', n, ty) {
      if n in w'.seats {
        assert n in Elements(ns);
        assert Slot(n, ty) in Slots(ns);
      }
    }
  }

  lemma RoundtripOk(w: World, awaiting: seq<Awaiting>, batch: seq<Event>, st: Settings, env: Env, written: Content)
    requires WorldOk(w, st, written) && EnvOk(env) && FreshOffers(w.history, batch) && RoundOk(w, awaiting, st, written)
    ensures ClientOk(OnRoundtripDone(w, awaiting, batch, st, env), st, written)
  {
    DispatchAllOk(w, batch, awaiting, st, env, written);
    var w1 := DispatchAll(w, batch, st, env);
    ResolveAllOk(w1, awaiting, st, written);
    if !w1.managerRemoved && ResolveAll(w1, awaiting).Continues? {
      var w2 := ResolveAll(w1, awaiting).world;
      if AnyFlag(w1) {
        forall n, ty ensures Ripe(w2, n, ty) {
          assert RoundSlotOk(w1, awaiting, n, ty);
        }
        TurnOk(w2, st, env, written);
      } else {
        forall n, ty ensures Settled(w2, n, ty) {
          assert RoundSlotOk(w1, awaiting, n, ty);
          assert !Flag(w1, n, ty);
        }
        EndOfTurn(w2, st, env, written);
      }
    }
  }

  lemma EventsOk(w: World, batch: seq<Event>, st: Settings, env: Env, written: Content)
    requires WorldOk(w, st, written) && EnvOk(env) && FreshOffers(w.history, batch)
    requires forall n, ty :: Settled(w, n, ty)
    ensures ClientOk(OnEvents(w, batch, st, env), st, written)
  {
    assert RoundOk(w, [], st, written);
    DispatchAllOk(w, batch, [], st, env, written);
    var w1 := DispatchAll(w, batch, st, env);
    if !w1.managerRemoved {
      forall n, ty ensures Ripe(w1, n, ty) {
        assert RoundSlotOk(w1, [], n, ty);
      }
      TurnOk(w1, st, env, written);
    }
  }

  /** An action that can happen, and that the environment is entitled to. */
  ghost predicate Legal(c: Client, a: Action, written: Content) {
    && Enabled(c, a)
    && (a.PipeReady? ==> Genuine(c.world, a.seat, a.ty, a.pipe, a.delivery, written))
  }

  lemma ApplyOk(c: Client, a: Action, st: Settings, written: Content)
    requires ClientOk(c, st, written) && Legal(c, a, written)
    ensures ClientOk(Apply(c, a, st), st, written)
  {
    match a
    case Events(batch, env) => EventsOk(c.world, batch, st, env, written);
    case RoundtripDone(batch, env) => RoundtripOk(c.world, c.phase.awaiting, batch, st, env, written);
    case PipeReady(n, ty, i, d) =>
      DeliverOk(c.world, n, ty, i, d, st, written);
      var w' := Apply(c, a, st).world;
      forall m, tz ensures Settled(w', m, tz) && Posted(w', m, tz) {
        if m != n || tz != ty {
          assert At(w', m, tz) == At(c.world, m, tz);
          assert Posted(c.world, m, tz);
        }
      }
  }

  // ----- runs -----

  /** Where a client gets to from `c`. */
  function Follow(c: Client, actions: seq<Action>, st: Settings): Client {
    if actions == [] then c
    else Apply(Follow(c, actions[..|actions| - 1], st), actions[|actions| - 1], st)
  }

  /** A legal continuation of a run. */
  ghost predicate LegalFrom(c: Client, actions: seq<Action>, st: Settings, written: Content) {
    actions != [] ==>
      && LegalFrom(c, actions[..|actions| - 1], st, written)
      && Legal(Follow(c, actions[..|actions| - 1], st), actions[|actions| - 1], written)
  }

  /** A run is followed from the start. */
  function Run(actions: seq<Action>, st: Settings): Client {
    Follow(INITIAL, actions, st)
  }

  ghost predicate LegalRun(actions: seq<Action>, st: Settings, written: Content) {
    LegalFrom(INITIAL, actions, st, written)
  }

  lemma {:induction false} FollowOk(c: Client, actions: seq<Action>, st: Settings, written: Content)
    requires ClientOk(c, st, written) && LegalFrom(c, actions, st, written)
    ensures ClientOk(Follow(c, actions, st), st, written)
  {
    if actions != [] {
      FollowOk(c, actions[..|actions| - 1], st, written);
      ApplyOk(Follow(c, actions[..|actions| - 1], st), actions[|actions| - 1], st, written);
    }
  }

  /** The invariant holds throughout every run. */
  lemma RunsAreOk(actions: seq<Action>, st: Settings, written: Content)
    requires LegalRun(actions, st, written)
    ensures ClientOk(Run(actions, st), st, written)
  {
    assert forall n :: SeatOk(INITIAL.world, n, st);
    FollowOk(INITIAL, actions, st, written);
  }
}
