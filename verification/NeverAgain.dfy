/** The steps of the client inside the system, and the theorem: a selection of our own is never
    published again, over any run of the client and a compositor that follows the protocol. */
module NeverAgain {
  import opened Protocol
  import opened PipeReader
  import opened History
  import opened ClientSpec
  import opened ClientInvariant
  import opened Resolution
  import opened ClientRuns
  import opened ClientTheorems
  import opened Wire
  import opened Sources
  import opened Asked
  import opened Budget
  import opened Compositor
  import opened NoSelfCopy

  // ----- ledgers under the steps of the client -----

  /** Requests and publications are only added, and no roundtrip is asked for. */
  predicate Grows(w: World, w': World) {
    w.out <= w'.out && w.published <= w'.published && Sync !in w'.out[|w.out|..]
  }

  predicate Steady(w: World, w': World) {
    Grows(w, w') && w'.history == w.history
  }

  lemma GrowsBy(w: World, w': World, d: seq<Request>)
    requires w'.out == w.out + d && Sync !in d && w.published <= w'.published
    ensures Grows(w, w')
  {
    assert w'.out[|w.out|..] == d;
  }

  lemma GrowsTransitive(a: World, b: World, c: World)
    requires Grows(a, b) && Grows(b, c)
    ensures Grows(a, c)
  {
    assert c.out[|a.out|..] == b.out[|a.out|..] + c.out[|b.out|..];
  }

  lemma SeatEventGrows(w: World, e: Event, st: Settings, env: Env)
    requires e.SeatAdded? || e.GlobalRemoved? || e.Finished?
    ensures Grows(w, Dispatch(w, e, st, env))
  {
    var w' := Dispatch(w, e, st, env);
    LedgersGrow(w, e, st, env);
    SeatEventOut(w, e, st, env);
    if w'.out != w.out {
      GrowsBy(w, w', SeatTeardown(e.seat, w.seats[e.seat], env));
    }
  }

  lemma SelectedGrows(w: World, e: Event, st: Settings, env: Env)
    requires e.Selected?
    ensures Grows(w, Dispatch(w, e, st, env))
  {
    LedgersGrow(w, e, st, env);
    SelectedSends(w, e, st, env);
    GrowsBy(w, Dispatch(w, e, st, env), if e.seat in w.seats then Teardown(At(w, e.seat, e.ty)) + Declined(w, e, st)
            else []);
  }

  lemma DispatchGrows(w: World, e: Event, st: Settings, env: Env)
    ensures Grows(w, Dispatch(w, e, st, env))
  {
    if e.Selected? {
      SelectedGrows(w, e, st, env);
    } else if e.SeatAdded? || e.GlobalRemoved? || e.Finished? {
      SeatEventGrows(w, e, st, env);
    } else {
      LedgersGrow(w, e, st, env);
      GrowsBy(w, Dispatch(w, e, st, env), Dispatch(w, e, st, env).out[|w.out|..]);
    }
  }

  lemma {:induction false} DispatchAllGrows(w: World, batch: seq<Event>, st: Settings, env: Env)
    ensures Grows(w, DispatchAll(w, batch, st, env))
  {
    if batch != [] {
      var w1 := DispatchAll(w, batch[..|batch| - 1], st, env);
      DispatchAllGrows(w, batch[..|batch| - 1], st, env);
      DispatchGrows(w1, batch[|batch| - 1], st, env);
      GrowsTransitive(w, w1, DispatchAll(w, batch, st, env));
    }
  }

  lemma PrepareSteady(w: World, n: SeatName, ty: SelectionType, st: Settings, env: Env)
    ensures Steady(w, Prepare(w, n, ty, st, env).0)
  {
    PrepareEffect(w, n, ty, st, env);
    PrepareFrame(w, n, ty, st, env, n, ty);
    var w' := Prepare(w, n, ty, st, env).0;
    if IsReading(w, n, ty) {
      var c := CreatePipes(env.typeOrder(At(w, n, ty).value.unique), OpenFor(env, n, ty), st);
      PrepareReadingOut(w, n, ty, st, env, c);
      var o := At(w, n, ty).value.offer;
      GrowsBy(w, w', if c.error || c.pipes == [] then Receives(o, c.pipes) + [DestroyOffer(o)]
              else Receives(o, c.pipes));
    } else {
      assert w'.out == w.out;
    }
  }

  lemma {:induction false} PrepareAllSteady(w: World, slots: seq<Slot>, st: Settings, env: Env)
    ensures Steady(w, PrepareAll(w, slots, st, env).0)
  {
    if slots != [] {
      var w1, last := PrepareAll(w, slots[..|slots| - 1], st, env).0, slots[|slots| - 1];
      PrepareAllSteady(w, slots[..|slots| - 1], st, env);
      PrepareSteady(w1, last.seat, last.ty, st, env);
      GrowsTransitive(w, w1, PrepareAll(w, slots, st, env).0);
    }
  }

  lemma SwitchSteady(w: World, n: SeatName, ty: SelectionType, s: Selection)
    requires n in w.seats
    ensures Steady(w, Switch(w, n, ty, s)) && Steady(w, Put(w, n, ty, s))
  {
    GrowsBy(w, Switch(w, n, ty, s), Teardown(At(w, n, ty)));
  }

  lemma {:induction false} ResolveAllSteady(w: World, awaiting: seq<Awaiting>)
    ensures ResolveAll(w, awaiting).Continues? ==> Steady(w, ResolveAll(w, awaiting).world)
  {
    if awaiting != [] && ResolveAll(w, awaiting).Continues? {
      var a := awaiting[|awaiting| - 1];
      ResolveAllSteady(w, awaiting[..|awaiting| - 1]);
      var w1 := ResolveAll(w, awaiting[..|awaiting| - 1]).world;
      if IsReading(w1, a.seat, a.ty) {
        var s := At(w1, a.seat, a.ty).value;
        SwitchSteady(w1, a.seat, a.ty, Waiting);
        SwitchSteady(w1, a.seat, a.ty, GotPipes(s.ordered, Reader(a.pipes, s.bytesRead, 0, 0)));
      }
      GrowsTransitive(w, w1, ResolveAll(w, awaiting).world);
    }
  }

  lemma SetClipboardSteady(w: World, n: SeatName, ty: SelectionType, ordered: seq<Mime>, data: map<Mime, Bytes>)
    requires At(w, n, ty).Some? && !IsReading(w, n, ty)
    ensures Steady(w, SetClipboard(w, n, ty, ordered, data))
  {
    var s := w.nextSource;
    GrowsBy(w, SetClipboard(w, n, ty, ordered, data),
            [CreateSource(s)] + OfferTypes(s, Keep(ordered, data.Keys))
            + (if s in w.seats[n].sources.At(ty) then [DestroySource(s)] else []) + [SetSelection(n, ty, s)]);
  }

  lemma {:induction false} PublishAllSteady(w: World, slots: seq<Slot>)
    ensures Steady(w, PublishAll(w, slots))
  {
    if slots != [] {
      PublishAllSteady(w, slots[..|slots| - 1]);
      var w1, last := PublishAll(w, slots[..|slots| - 1]), slots[|slots| - 1];
      if !Posted(w1, last.seat, last.ty) {
        SetClipboardSteady(w1, last.seat, last.ty, At(w1, last.seat, last.ty).value.ordered,
                           At(w1, last.seat, last.ty).value.data);
      }
      GrowsTransitive(w, w1, PublishAll(w, slots));
    }
  }

  lemma UsedSteady(w: World, n: SeatName, ty: SelectionType, ordered: seq<Mime>, data: map<Mime, Bytes>)
    requires At(w, n, ty).Some? && At(w, n, ty).value.GotPipes?
    ensures Steady(w, Used(w, n, ty, ordered, data))
  {
    SwitchSteady(w, n, ty, Waiting);
    SwitchSteady(w, n, ty, GotData(ordered, data));
    SetClipboardSteady(w, n, ty, ordered, data);
  }

  lemma DeliverSteady(w: World, n: SeatName, ty: SelectionType, i: nat, d: Delivery, st: Settings)
    requires CanRead(w, n, ty, i) && Deliver(w, n, ty, i, d, st).Continues?
    ensures Steady(w, Deliver(w, n, ty, i, d, st).world)
  {
    var s := At(w, n, ty).value;
    var step := Wake(s.reader, i, d, st);
    var w1 := if d.Broken? then NoteFault(w, n, ty, s.reader.pipes[i].mime) else w;
    assert w1.out == w.out && w1.seats == w.seats && w1.history == w.history && w1.published == w.published;
    match step.verdict
    case Pending => SwitchSteady(w1, n, ty, s.(reader := step.reader));
    case Abandoned(_) => SwitchSteady(w1, n, ty, Waiting);
    case Complete => UsedSteady(w1, n, ty, s.ordered, Collect(step.reader.pipes).value);
  }

  /** What a turn of the loop adds: if it ends in a roundtrip, one request for it, at the end. */
  ghost predicate TurnAdds(w: World, c: Client) {
    && c.world.history == w.history && w.published <= c.world.published && w.out <= c.world.out
    && match c.phase
       case InRoundtrip(_) =>
         |c.world.out| > |w.out| && c.world.out[|c.world.out| - 1] == Sync
         && Sync !in c.world.out[|w.out|..|c.world.out| - 1]
       case _ => Sync !in c.world.out[|w.out|..]
  }

  lemma TurnAddsSync(w: World, st: Settings, env: Env)
    ensures TurnAdds(w, TakeTurn(w, st, env))
  {
    var slots := Slots(env.order(w.seats.Keys));
    PrepareAllSteady(w, slots, st, env);
    var (w1, awaiting) := PrepareAll(w, slots, st, env);
    if awaiting == [] {
      PublishAllSteady(w1, Slots(env.order(w1.seats.Keys)));
      GrowsTransitive(w, w1, PublishAll(w1, Slots(env.order(w1.seats.Keys))));
    } else {
      var out := Emit(ClearFlags(w1), [Sync]).out;
      assert out == w1.out + [Sync];
      assert out[|w.out|..|out| - 1] == w1.out[|w.out|..];
    }
  }

  lemma TurnAddsAfter(w: World, w1: World, c: Client)
    requires Grows(w, w1) && TurnAdds(w1, c)
    ensures TurnAdds(w.(history := w1.history), c)
  {
    var out := c.world.out;
    assert out[|w.out|..] == w1.out[|w.out|..] + out[|w1.out|..];
    if c.phase.InRoundtrip? {
      assert out[|w.out|..|out| - 1] == w1.out[|w.out|..] + out[|w1.out|..|out| - 1];
    }
  }

  lemma SteadyAdds(w: World, w': World, phase: Phase)
    requires Grows(w, w') && !phase.InRoundtrip?
    ensures TurnAdds(w.(history := w'.history), Client(w', phase))
  {
  }

  /** The ledgers after any step of the client. */
  lemma ApplyAdds(c: Client, a: Action, st: Settings, written: Content)
    requires ClientOk(c, st, written) && Legal(c, a, written)
    ensures var c' := Apply(c, a, st);
            && c'.world.history == (if a.PipeReady? then c.world.history else Extend(c.world.history, a.batch))
            && TurnAdds(c.world.(history := c'.world.history), c')
  {
    match a
    case PipeReady(n, ty, i, d) =>
      DeliverOk(c.world, n, ty, i, d, st, written);
      DeliverSteady(c.world, n, ty, i, d, st);
    case Events(batch, env) =>
      var w1 := DispatchAll(c.world, batch, st, env);
      DispatchAllHistory(c.world, batch, st, env);
      DispatchAllGrows(c.world, batch, st, env);
      SteadyAdds(c.world, w1, Stopped);
      TurnAddsAll(c.world, w1, st, env);
    case RoundtripDone(batch, env) =>
      var w1 := DispatchAll(c.world, batch, st, env);
      DispatchAllHistory(c.world, batch, st, env);
      DispatchAllGrows(c.world, batch, st, env);
      SteadyAdds(c.world, w1, Stopped);
      SteadyAdds(c.world, w1, Crashed);
      ResolveAllSteady(w1, c.phase.awaiting);
      if ResolveAll(w1, c.phase.awaiting).Continues? {
        var w2 := ResolveAll(w1, c.phase.awaiting).world;
        GrowsTransitive(c.world, w1, w2);
        TurnAddsAll(c.world, w2, st, env);
        EndAddsAll(c.world, w2, env);
      }
  }

  /** The ledgers after another turn of the loop, and after the loop is left, since the world `w`. */
  lemma TurnAddsAll(w: World, w1: World, st: Settings, env: Env)
    requires Grows(w, w1)
    ensures TurnAdds(w.(history := w1.history), TakeTurn(w1, st, env))
  {
    TurnAddsSync(w1, st, env);
    TurnAddsAfter(w, w1, TakeTurn(w1, st, env));
  }

  lemma EndAddsAll(w: World, w1: World, env: Env)
    requires Grows(w, w1)
    ensures var w2 := PublishAll(w1, Slots(env.order(w1.seats.Keys)));
            w2.history == w1.history && TurnAdds(w.(history := w1.history), Client(w2, Idle))
  {
    var w2 := PublishAll(w1, Slots(env.order(w1.seats.Keys)));
    PublishAllSteady(w1, Slots(env.order(w1.seats.Keys)));
    GrowsTransitive(w, w1, w2);
    SteadyAdds(w, w2, Idle);
  }

  // ----- our own selection is found out -----

  /** A selection that is being read and not flagged was so before, and was left alone. */
  lemma {:induction false} StillReading(w: World, batch: seq<Event>, n: SeatName, ty: SelectionType, st: Settings,
                                        env: Env)
    requires IsReading(DispatchAll(w, batch, st, env), n, ty) && !Flag(DispatchAll(w, batch, st, env), n, ty)
    ensures IsReading(w, n, ty) && !Flag(w, n, ty) && !TouchedIn(batch, n, ty)
    ensures At(DispatchAll(w, batch, st, env), n, ty).value.offer == At(w, n, ty).value.offer
    ensures forall fd :: fd in At(w, n, ty).value.fds && At(w, n, ty).value.fds[fd] ==>
              var fds := At(DispatchAll(w, batch, st, env), n, ty).value.fds; fd in fds && fds[fd]
  {
    if batch != [] {
      var front, e := batch[..|batch| - 1], batch[|batch| - 1];
      var w1 := DispatchAll(w, front, st, env);
      SlotEffect(w1, e, n, ty, st, env);
      assert !Touches(e, n, ty);
      StillReading(w, front, n, ty, st, env);
      MarksGrow(w1, e, n, ty, st, env);
      assert batch == front + [e];
    }
  }

  lemma CallbacksStay(w: World, e: Event, st: Settings, env: Env)
    ensures Dispatch(w, e, st, env).callbacks == w.callbacks
  {
  }

  lemma {:induction false} AllCallbacksStay(w: World, batch: seq<Event>, st: Settings, env: Env)
    ensures DispatchAll(w, batch, st, env).callbacks == w.callbacks
  {
    if batch != [] {
      AllCallbacksStay(w, batch[..|batch| - 1], st, env);
      CallbacksStay(DispatchAll(w, batch[..|batch| - 1], st, env), batch[|batch| - 1], st, env);
    }
  }

  lemma SendMarks(w: World, e: Event, n: SeatName, ty: SelectionType, st: Settings, env: Env)
    requires IsReading(w, n, ty) && e.Send? && !e.fault.MetadataFault?
    requires e.source in w.callbacks && w.callbacks[e.source].seat == n && w.callbacks[e.source].ty == ty
    requires e.fd in At(w, n, ty).value.fds
    ensures var w' := Dispatch(w, e, st, env); IsReading(w', n, ty) && AnyMarked(At(w', n, ty).value.fds)
  {
    var w' := Dispatch(w, e, st, env);
    assert At(w', n, ty).value.fds[e.fd];
  }

  /** A send request to our own source, through one of the pipes, marks the selection. */
  lemma {:induction false} SentMarks(w: World, batch: seq<Event>, n: SeatName, ty: SelectionType, src: SourceId,
                                     st: Settings, env: Env)
    requires IsReading(w, n, ty) && !TouchedIn(batch, n, ty) && SentIn(batch, src, At(w, n, ty).value.fds)
    requires src in w.callbacks && w.callbacks[src].seat == n && w.callbacks[src].ty == ty
    ensures var w' := DispatchAll(w, batch, st, env); IsReading(w', n, ty) && AnyMarked(At(w', n, ty).value.fds)
    decreases |batch|
  {
    var e :| e in batch && e.Send? && e.source == src && e.fd in At(w, n, ty).value.fds && !e.fault.MetadataFault?;
    var front, last := batch[..|batch| - 1], batch[|batch| - 1];
    assert batch == front + [last];
    assert last in batch && forall x :: x in front ==> x in batch;
    var w1 := DispatchAll(w, front, st, env);
    FdsStay(w, front, n, ty, st, env);
    AllCallbacksStay(w, front, st, env);
    if e in front {
      SentMarks(w, front, n, ty, src, st, env);
      MarksGrow(w1, last, n, ty, st, env);
      var fd :| fd in At(w1, n, ty).value.fds && At(w1, n, ty).value.fds[fd];
      assert At(DispatchAll(w, batch, st, env), n, ty).value.fds[fd];
    } else {
      SendMarks(w1, last, n, ty, st, env);
    }
  }

  /** The own offer of a selection that was left alone is marked when the answer is dispatched. */
  lemma OwnIsMarked(s: System, batch: seq<Event>, env: Env, a: Awaiting, st: Settings, written: Content)
    requires SystemOk(s, st, written) && CanMove(s, ClientStep(RoundtripDone(batch, env)), written)
    requires a in s.client.phase.awaiting && IsReading(s.client.world, a.seat, a.ty) && !TouchedIn(batch, a.seat, a.ty)
    requires var o := At(s.client.world, a.seat, a.ty).value.offer;
             && o in s.server.provenance && s.server.provenance[o].Own? && o in s.server.home
             && s.server.home[o] == Slot(a.seat, a.ty)
    ensures var w1 := DispatchAll(s.client.world, batch, st, env);
            IsReading(w1, a.seat, a.ty) && AnyMarked(At(w1, a.seat, a.ty).value.fds)
  {
    var w, n, ty := s.client.world, a.seat, a.ty;
    var r := At(w, n, ty).value;
    var src := s.server.provenance[r.offer].source;
    assert FoundOut(s, a) && SourceOk(w, src);
    var k := AnswerWithin(s, batch);
    if TouchedIn(s.queue[..k], n, ty) {
      TouchedInGrows(s.queue[..k], batch, n, ty);
    }
    SentInGrows(s.queue[..k], batch, src, r.fds);
    SentMarks(w, batch, n, ty, src, st, env);
  }

  lemma AnswerWithin(s: System, batch: seq<Event>) returns (k: nat)
    requires AnswerOk(s) && s.client.phase.InRoundtrip? && batch <= s.queue && Done in batch
    ensures AnswerAt(s.queue, k) && k < |batch| && s.queue[..k] <= batch
  {
    var i :| 0 <= i < |batch| && batch[i] == Done;
    assert s.queue[i] == Done;
    k :| AnswerAt(s.queue, k);
  }

  /** A selection that is being read reads the offer it was made for. */
  lemma ReadsItsHome(s: System, n: SeatName, ty: SelectionType, st: Settings, written: Content)
    requires SystemOk(s, st, written) && IsReading(s.client.world, n, ty)
    ensures var o := At(s.client.world, n, ty).value.offer;
            o in s.server.provenance && o in s.server.home && s.server.home[o] == Slot(n, ty)
  {
    var w := s.client.world;
    assert SelectionOk(w.history, w.out, w.faults, n, ty, At(w, n, ty).value, st, written);
    HomeParts(w.history, s.queue, s.server.home);
    LastIsHome(w.history, s.server.home, n, ty);
  }

  /** It waits for the roundtrip, unless a new selection is flagged. */
  lemma ReadIsAwaited(s: System, n: SeatName, ty: SelectionType, st: Settings, written: Content) returns (a: Awaiting)
    requires SystemOk(s, st, written) && s.client.phase.InRoundtrip?
    requires IsReading(s.client.world, n, ty) && !Flag(s.client.world, n, ty)
    ensures a in s.client.phase.awaiting && a.seat == n && a.ty == ty
  {
    assert RoundSlotOk(s.client.world, s.client.phase.awaiting, n, ty);
    a :| a in s.client.phase.awaiting && a.seat == n && a.ty == ty;
  }

  /** After the roundtrip, what is still read and not marked belongs to another client. */
  lemma OnlyForeignSurvives(s: System, batch: seq<Event>, env: Env, n: SeatName, ty: SelectionType, st: Settings,
                            written: Content)
    requires SystemOk(s, st, written) && CanMove(s, ClientStep(RoundtripDone(batch, env)), written)
    ensures EchoFree(DispatchAll(s.client.world, batch, st, env), n, ty, ForeignOffers(s.server))
  {
    var w := s.client.world;
    var w1 := DispatchAll(w, batch, st, env);
    if IsReading(w1, n, ty) && !Flag(w1, n, ty) && !AnyMarked(At(w1, n, ty).value.fds) {
      StillReading(w, batch, n, ty, st, env);
      var a := ReadIsAwaited(s, n, ty, st, written);
      ReadsItsHome(s, n, ty, st, written);
      if s.server.provenance[At(w, n, ty).value.offer].Own? {
        OwnIsMarked(s, batch, env, a, st, written);
      }
    }
  }

  // ----- the invariant under the steps of the client -----

  lemma StepIsLegal(s: System, a: Action, st: Settings, written: Content)
    requires SystemOk(s, st, written) && CanMove(s, ClientStep(a), written)
    ensures Legal(s.client, a, written)
  {
    if !a.PipeReady? { FreshPrefix(s.client.world.history, s.queue, a.batch); }
  }

  lemma StepClientSide(s: System, a: Action, st: Settings, written: Content)
    requires SystemOk(s, st, written) && CanMove(s, ClientStep(a), written)
    ensures ClientSideOk(Apply(s.client, a, st), st, written)
  {
    StepIsLegal(s, a, st, written);
    ApplyOk(s.client, a, st, written);
    ApplyProper(s.client, a, st, written);
    ApplySources(s.client, a, st);
    ApplyAsked(s.client, a, st, written);
  }

  lemma StepFuture(s: System, a: Action, st: Settings, written: Content)
    requires SystemOk(s, st, written) && CanMove(s, ClientStep(a), written)
    ensures Future(Do(s, ClientStep(a), st)) == Future(s)
  {
    StepIsLegal(s, a, st, written);
    ApplyAdds(s.client, a, st, written);
    if !a.PipeReady? {
      var rest := s.queue[|a.batch|..];
      assert s.queue == a.batch + rest;
      ExtendAppend(s.client.world.history, a.batch, rest);
    }
  }

  lemma StepRequestsOk(s: System, a: Action, st: Settings, written: Content)
    requires SystemOk(s, st, written) && CanMove(s, ClientStep(a), written)
    ensures RequestsOk(Do(s, ClientStep(a), st)) && OwnOffersOk(Do(s, ClientStep(a), st).client.world, s.server)
  {
    StepIsLegal(s, a, st, written);
    ApplyAdds(s.client, a, st, written);
    var s' := Do(s, ClientStep(a), st);
    forall o | o in s.server.forwarded ensures AskedBy(s', o) {
      AskedByGrows(s, s', o);
    }
  }

  /** Before a step of the client is over, the old answer is consumed. */
  lemma NoAnswerBehind(q: seq<Event>, n: nat)
    requires n <= |q| && forall j :: 0 <= j < |q| && q[j] == Done ==> j < n
    ensures Done !in q[n..]
  {
    forall j | 0 <= j < |q[n..]| ensures q[n..][j] != Done {
      assert q[n..][j] == q[n + j];
    }
  }

  lemma StepConsumesAnswer(s: System, a: Action, st: Settings, written: Content)
    requires SystemOk(s, st, written) && CanMove(s, ClientStep(a), written)
    ensures Done !in Do(s, ClientStep(a), st).queue && !Unserved(s, Sync)
  {
    assert AnswerOk(s);
    if s.client.phase.InRoundtrip? {
      var i :| 0 <= i < |a.batch| && a.batch[i] == Done;
      assert s.queue[i] == Done;
      var k: nat :| AnswerAt(s.queue, k);
      assert k == i;
      assert s.server.cursor == |s.client.world.out|;
      NoAnswerBehind(s.queue, |a.batch|);
    } else if !a.PipeReady? {
      NoAnswerBehind(s.queue, |a.batch|);
    }
  }

  /** Requests served or not, after some were added. */
  lemma UnservedAfter(out: seq<Request>, out': seq<Request>, cur: nat)
    requires cur <= |out| && out <= out' && Sync !in out[cur..]
    ensures Sync in out'[cur..] ==> Sync in out'[|out|..]
    ensures |out| < |out'| && Sync !in out'[|out|..|out'| - 1] ==> Sync !in out'[cur..|out'| - 1]
  {
    assert out'[cur..] == out[cur..] + out'[|out|..];
    if |out| < |out'| {
      assert out'[cur..|out'| - 1] == out[cur..] + out'[|out|..|out'| - 1];
    }
  }

  lemma StepAnswerOk(s: System, a: Action, st: Settings, written: Content)
    requires SystemOk(s, st, written) && CanMove(s, ClientStep(a), written)
    ensures AnswerOk(Do(s, ClientStep(a), st))
  {
    var c' := Apply(s.client, a, st);
    StepAdds(s, a, st, written, c');
    StepConsumesAnswer(s, a, st, written);
    UnservedAfter(s.client.world.out, c'.world.out, s.server.cursor);
    var s' := Do(s, ClientStep(a), st);
    assert s'.client == c' && s'.server == s.server;
    AnswerOkAfter(s, s');
  }

  lemma StepAdds(s: System, a: Action, st: Settings, written: Content, c': Client)
    requires SystemOk(s, st, written) && CanMove(s, ClientStep(a), written) && c' == Apply(s.client, a, st)
    ensures TurnAdds(s.client.world.(history := c'.world.history), c')
    ensures s.server.cursor <= |s.client.world.out|
  {
    StepIsLegal(s, a, st, written);
    ApplyAdds(s.client, a, st, written);
  }

  lemma AnswerOkAfter(s: System, s': System)
    requires Done !in s'.queue && s'.server == s.server && s.server.cursor <= |s.client.world.out|
    requires var out, out' := s.client.world.out, s'.client.world.out;
             && out <= out'
             && (Sync in out'[s.server.cursor..] ==> Sync in out'[|out|..])
             && (|out| < |out'| && Sync !in out'[|out|..|out'| - 1] ==> Sync !in out'[s.server.cursor..|out'| - 1])
    requires TurnAdds(s.client.world.(history := s'.client.world.history), s'.client)
    ensures AnswerOk(s')
  {
  }

  /** What is waited for after a turn was not asked for anything before it. */
  lemma {:induction false} PreparedWasRead(w: World, slots: seq<Slot>, n: SeatName, ty: SelectionType, st: Settings,
                                           env: Env)
    ensures var w' := PrepareAll(w, slots, st, env).0;
            IsReading(w', n, ty) ==> IsReading(w, n, ty) && At(w', n, ty).value.offer == At(w, n, ty).value.offer
  {
    if slots != [] {
      var w1, last := PrepareAll(w, slots[..|slots| - 1], st, env).0, slots[|slots| - 1];
      PreparedWasRead(w, slots[..|slots| - 1], n, ty, st, env);
      PrepareEffect(w1, last.seat, last.ty, st, env);
      PrepareFrame(w1, last.seat, last.ty, st, env, n, ty);
    }
  }

  predicate Unasked(w: World, o: OfferId) {
    forall r :: r in w.out ==> !(r.Receive? && r.offer == o)
  }

  lemma TurnStartsAfresh(w: World, st: Settings, env: Env, n: SeatName, ty: SelectionType)
    requires AskedOk(w) && (forall m, tz :: Ripe(w, m, tz))
    requires TakeTurn(w, st, env).phase.InRoundtrip? && IsReading(TakeTurn(w, st, env).world, n, ty)
    ensures Unasked(w, At(TakeTurn(w, st, env).world, n, ty).value.offer)
  {
    var slots := Slots(env.order(w.seats.Keys));
    var (w1, awaiting) := PrepareAll(w, slots, st, env);
    assert At(TakeTurn(w, st, env).world, n, ty) == At(w1, n, ty);
    PreparedWasRead(w, slots, n, ty, st, env);
    var o := At(w, n, ty).value.offer;
    assert Ripe(w, n, ty) && ReadAt(w, n, ty, o);
    forall r | r in w.out ensures !(r.Receive? && r.offer == o) {
      assert r.Receive? ==> Remembered(w, r);
    }
  }

  lemma EventsStartAfresh(c: Client, batch: seq<Event>, env: Env, st: Settings, written: Content, n: SeatName,
                          ty: SelectionType)
    requires ClientSideOk(c, st, written) && Legal(c, Events(batch, env), written)
    requires Apply(c, Events(batch, env), st).phase.InRoundtrip? &&
             IsReading(Apply(c, Events(batch, env), st).world, n, ty)
    ensures Unasked(c.world, At(Apply(c, Events(batch, env), st).world, n, ty).value.offer)
  {
    assert RoundOk(c.world, [], st, written);
    var w1 := DispatchAll(c.world, batch, st, env);
    DispatchAllOk(c.world, batch, [], st, env, written);
    DispatchAllAsked(c.world, batch, [], st, env, written);
    DispatchAllGrows(c.world, batch, st, env);
    forall m, tz ensures Ripe(w1, m, tz) {
      assert RoundSlotOk(w1, [], m, tz);
    }
    TurnStartsAfresh(w1, st, env, n, ty);
  }

  lemma ResolvedIsRipe(w1: World, awaiting: seq<Awaiting>, st: Settings, written: Content)
    requires WorldOk(w1, st, written) && RoundOk(w1, awaiting, st, written) && AskedOk(w1)
    requires ResolveAll(w1, awaiting).Continues? && AnyFlag(w1)
    ensures var w2 := ResolveAll(w1, awaiting).world;
            w1.out <= w2.out && AskedOk(w2) && forall m, tz :: Ripe(w2, m, tz)
  {
    ResolveAllOk(w1, awaiting, st, written);
    ResolveAllAsked(w1, awaiting);
    ResolveAllSteady(w1, awaiting);
    var w2 := ResolveAll(w1, awaiting).world;
    forall m, tz ensures Ripe(w2, m, tz) {
      assert RoundSlotOk(w1, awaiting, m, tz);
    }
  }

  lemma RoundtripStartsAfresh(c: Client, batch: seq<Event>, env: Env, st: Settings, written: Content, n: SeatName,
                              ty: SelectionType)
    requires ClientSideOk(c, st, written) && Legal(c, RoundtripDone(batch, env), written)
    requires var c' := Apply(c, RoundtripDone(batch, env), st); c'.phase.InRoundtrip? && IsReading(c'.world, n, ty)
    ensures Unasked(c.world, At(Apply(c, RoundtripDone(batch, env), st).world, n, ty).value.offer)
  {
    var w1 := DispatchAll(c.world, batch, st, env);
    DispatchAllOk(c.world, batch, c.phase.awaiting, st, env, written);
    DispatchAllAsked(c.world, batch, c.phase.awaiting, st, env, written);
    DispatchAllGrows(c.world, batch, st, env);
    ResolvedIsRipe(w1, c.phase.awaiting, st, written);
    TurnStartsAfresh(ResolveAll(w1, c.phase.awaiting).world, st, env, n, ty);
  }

  /** After a step that ends in a roundtrip, no offer that is waited for was asked for anything before
      the step. */
  lemma StepStartsAfresh(c: Client, a: Action, st: Settings, written: Content, n: SeatName, ty: SelectionType)
    requires ClientSideOk(c, st, written) && Legal(c, a, written)
    requires Apply(c, a, st).phase.InRoundtrip? && IsReading(Apply(c, a, st).world, n, ty)
    ensures Unasked(c.world, At(Apply(c, a, st).world, n, ty).value.offer)
  {
    match a
    case Events(batch, env) => EventsStartAfresh(c, batch, env, st, written, n, ty);
    case RoundtripDone(batch, env) => RoundtripStartsAfresh(c, batch, env, st, written, n, ty);
    case PipeReady(_, _, _, _) =>
  }

  lemma StepEchoOk(s: System, a: Action, st: Settings, written: Content)
    requires SystemOk(s, st, written) && CanMove(s, ClientStep(a), written)
    ensures EchoOk(Do(s, ClientStep(a), st))
  {
    var s' := Do(s, ClientStep(a), st);
    StepIsLegal(s, a, st, written);
    StepConsumesAnswer(s, a, st, written);
    if s'.client.phase.InRoundtrip? {
      forall b | b in s'.client.phase.awaiting ensures FoundOut(s', b) {
        if IsReading(s'.client.world, b.seat, b.ty) {
          StepStartsAfresh(s.client, a, st, written, b.seat, b.ty);
          var o := At(s'.client.world, b.seat, b.ty).value.offer;
          assert o !in s.server.forwarded;
        }
      }
    }
  }

  lemma StepThrifty(s: System, a: Action, st: Settings, written: Content, n: SeatName, ty: SelectionType)
    requires SystemOk(s, st, written) && CanMove(s, ClientStep(a), written)
    ensures Thrifty(s.client.world, Apply(s.client, a, st).world, n, ty, ForeignOffers(s.server))
  {
    StepIsLegal(s, a, st, written);
    if a.RoundtripDone? { OnlyForeignSurvives(s, a.batch, a.env, n, ty, st, written); }
    ApplyThrifty(s.client, a, st, written, n, ty, ForeignOffers(s.server));
  }

  lemma StepOk(s: System, a: Action, st: Settings, written: Content)
    requires SystemOk(s, st, written) && CanMove(s, ClientStep(a), written)
    ensures SystemOk(Do(s, ClientStep(a), st), st, written)
  {
    StepClientSide(s, a, st, written);
    StepFuture(s, a, st, written);
    StepRequestsOk(s, a, st, written);
    StepAnswerOk(s, a, st, written);
    StepEchoOk(s, a, st, written);
    var s' := Do(s, ClientStep(a), st);
    forall n, ty
      ensures ReadsForeign(s'.client.world, n, ty, ForeignOffers(s'.server)) &&
              PaidFor(s'.client.world, n, ty, ForeignOffers(s'.server))
    {
      StepThrifty(s, a, st, written, n, ty);
      assert ReadsForeign(s.client.world, n, ty, ForeignOffers(s.server)) &&
             PaidFor(s.client.world, n, ty, ForeignOffers(s.server));
    }
  }

  // ----- runs of the system -----

  /** The system after a sequence of moves. */
  function After(s: System, ms: seq<Move>, st: Settings): System {
    if ms == [] then s else Do(After(s, ms[..|ms| - 1], st), ms[|ms| - 1], st)
  }

  ghost predicate CanRun(s: System, ms: seq<Move>, st: Settings, written: Content) {
    ms != [] ==>
      && CanRun(s, ms[..|ms| - 1], st, written)
      && CanMove(After(s, ms[..|ms| - 1], st), ms[|ms| - 1], written)
  }

  lemma StartOk(st: Settings, written: Content)
    ensures SystemOk(START, st, written)
  {
    RunsAreOk([], st, written);
    OffersAreUsedLinearly([], st, written);
    SourcesAreUsedProperly([], st, written);
  }

  lemma {:induction false} RunOk(s: System, ms: seq<Move>, st: Settings, written: Content, n: SeatName,
                                 ty: SelectionType)
    requires SystemOk(s, st, written) && CanRun(s, ms, st, written)
    ensures SystemOk(After(s, ms, st), st, written)
    ensures Credit(s, n, ty) <= Credit(After(s, ms, st), n, ty)
  {
    if ms != [] {
      var front, m := ms[..|ms| - 1], ms[|ms| - 1];
      RunOk(s, front, st, written, n, ty);
      var s1 := After(s, front, st);
      if m.ClientStep? {
        StepOk(s1, m.action, st, written);
        StepThrifty(s1, m.action, st, written, n, ty);
      } else {
        MoveOk(s1, m, st, written);
        MoveKeepsCredit(s1, m, n, ty, st, written);
      }
    }
  }

  /** The client never copies itself. In every run with a compositor that follows the protocol, each
      publication is of an offer of another client, and there are at most as many publications for a
      seat and type as other clients have made selections that were dispatched. */
  lemma NeverCopiesItself(ms: seq<Move>, st: Settings, written: Content, n: SeatName, ty: SelectionType)
    requires CanRun(START, ms, st, written)
    ensures var s := After(START, ms, st);
            && (forall p :: p in s.client.world.published && p.seat == n && p.ty == ty ==>
                  && Origin(p.history, n, ty).Some?
                  && Origin(p.history, n, ty).value in s.server.provenance
                  && s.server.provenance[Origin(p.history, n, ty).value].Foreign?)
            && Published(s.client.world.published, n, ty)
               <= Selections(s.client.world.history, n, ty, ForeignOffers(s.server))
  {
    StartOk(st, written);
    RunOk(START, ms, st, written, n, ty);
    var s := After(START, ms, st);
    assert ReadsForeign(s.client.world, n, ty, ForeignOffers(s.server)) &&
           PaidFor(s.client.world, n, ty, ForeignOffers(s.server));
  }

  // ----- after the last copy -----

  ghost predicate NoCopy(ms: seq<Move>, n: SeatName, ty: SelectionType) {
    forall m :: m in ms ==> !(m.Copy? && m.seat == n && m.ty == ty)
  }

  /** All foreign selections of a slot, dispatched or on their way. */
  function AllSelections(s: System, n: SeatName, ty: SelectionType): nat {
    Selections(Future(s), n, ty, ForeignOffers(s.server))
  }

  lemma {:induction false} SelectionsExtend(h: History, ev: seq<Event>, n: SeatName, ty: SelectionType,
                                            foreign: set<OfferId>)
    requires forall e :: e in ev && Selects(e, n, ty) && e.maybeOffer.Some? ==> e.maybeOffer.value !in foreign
    ensures Selections(Extend(h, ev), n, ty, foreign) == Selections(h, n, ty, foreign)
  {
    if ev != [] {
      var front := ev[..|ev| - 1];
      assert ev[|ev| - 1] in ev && forall e :: e in front ==> e in ev;
      SelectionsExtend(h, front, n, ty, foreign);
    }
  }

  lemma {:induction false} SelectionsGrow(h: History, ev: seq<Event>, n: SeatName, ty: SelectionType,
                                          foreign: set<OfferId>)
    ensures Selections(h, n, ty, foreign) <= Selections(Extend(h, ev), n, ty, foreign)
  {
    if ev != [] { SelectionsGrow(h, ev[..|ev| - 1], n, ty, foreign); }
  }

  /** The selection events that a move adds. */
  lemma AddedSelections(s: System, m: Move, st: Settings, written: Content, e: Event)
    requires !m.ClientStep? && CanMove(s, m, written) && s.queue <= Do(s, m, st).queue
    requires e in Do(s, m, st).queue[|s.queue|..] && e.Selected? && e.maybeOffer.Some?
    ensures || (m.Copy? && e.seat == m.seat && e.ty == m.ty)
            || (m.Serve? && e.maybeOffer.value == m.offer && m.offer !in s.server.provenance)
  {
    if m.Serve? && !s.client.world.out[s.server.cursor].SetSelection? {
      ServedQuietEvents(s, m.offer, m.types, m.forward, m.fault);
    }
  }

  /** The events a move adds announce foreign selections of a slot only if it is a copy on that slot. */
  lemma MoveAnnounces(s: System, m: Move, st: Settings, written: Content, n: SeatName, ty: SelectionType)
    requires SystemOk(s, st, written) && !m.ClientStep? && CanMove(s, m, written) && NoCopy([m], n, ty)
    ensures var s' := Do(s, m, st);
            && s.queue <= s'.queue
            && forall e :: e in s'.queue[|s.queue|..] && Selects(e, n, ty) && e.maybeOffer.Some? ==>
                 e.maybeOffer.value !in ForeignOffers(s'.server)
  {
    assert m in [m];
    MoveAdds(s, m, st, written);
    ForeignOffersAfter(s, m, st, written);
    var s' := Do(s, m, st);
    forall e | e in s'.queue[|s.queue|..] && Selects(e, n, ty) && e.maybeOffer.Some?
      ensures e.maybeOffer.value !in ForeignOffers(s'.server)
    {
      AddedSelections(s, m, st, written, e);
    }
  }

  /** Offers that become known with a move were not counted before. */
  lemma NewForeignUncounted(s: System, m: Move, st: Settings, written: Content, n: SeatName, ty: SelectionType)
    requires SystemOk(s, st, written) && !m.ClientStep? && CanMove(s, m, written)
    ensures Selections(Future(s), n, ty, ForeignOffers(Do(s, m, st).server)) == AllSelections(s, n, ty)
  {
    ForeignOffersAfter(s, m, st, written);
    if m.Copy? {
      NewOfferUncounted(Future(s), s.server.home, n, ty, ForeignOffers(s.server), m.offer);
    } else {
      assert ForeignOffers(Do(s, m, st).server) == ForeignOffers(s.server);
    }
  }

  lemma MoveKeepsAllSelections(s: System, m: Move, st: Settings, written: Content, n: SeatName, ty: SelectionType)
    requires SystemOk(s, st, written) && CanMove(s, m, written) && NoCopy([m], n, ty)
    ensures AllSelections(Do(s, m, st), n, ty) == AllSelections(s, n, ty)
  {
    var s' := Do(s, m, st);
    if m.ClientStep? {
      StepFuture(s, m.action, st, written);
    } else {
      MoveAnnounces(s, m, st, written, n, ty);
      NewForeignUncounted(s, m, st, written, n, ty);
      assert s'.client == s.client by { MoveAdds(s, m, st, written); }
      NothingAnnounced(s, s', n, ty, ForeignOffers(s'.server));
    }
  }

  lemma NothingAnnounced(s: System, s': System, n: SeatName, ty: SelectionType, foreign: set<OfferId>)
    requires s'.client == s.client && s.queue <= s'.queue
    requires forall e :: e in s'.queue[|s.queue|..] && Selects(e, n, ty) && e.maybeOffer.Some? ==>
               e.maybeOffer.value !in foreign
    ensures Selections(Future(s'), n, ty, foreign) == Selections(Future(s), n, ty, foreign)
  {
    var ev := s'.queue[|s.queue|..];
    assert s'.queue == s.queue + ev;
    FutureGrows(s, s', ev);
    SelectionsExtend(Future(s), ev, n, ty, foreign);
  }

  lemma {:induction false} RunKeepsAllSelections(s: System, ms: seq<Move>, st: Settings, written: Content,
                                                 n: SeatName, ty: SelectionType)
    requires SystemOk(s, st, written) && CanRun(s, ms, st, written) && NoCopy(ms, n, ty)
    ensures AllSelections(After(s, ms, st), n, ty) == AllSelections(s, n, ty)
  {
    if ms != [] {
      var front, m := ms[..|ms| - 1], ms[|ms| - 1];
      assert m in ms && forall x :: x in front ==> x in ms;
      RunKeepsAllSelections(s, front, st, written, n, ty);
      RunOk(s, front, st, written, n, ty);
      MoveKeepsAllSelections(After(s, front, st), m, st, written, n, ty);
    }
  }

  /** After the last copy on a seat and type, and once its events were dispatched, at most one more
      publication happens for it, over the whole rest of the run. */
  lemma AtMostOncePerCopy(s: System, ms: seq<Move>, st: Settings, written: Content, n: SeatName, ty: SelectionType)
    requires SystemOk(s, st, written) && CanRun(s, ms, st, written) && NoCopy(ms, n, ty)
    requires forall e :: e in s.queue && Selects(e, n, ty) && e.maybeOffer.Some? ==>
             e.maybeOffer.value !in ForeignOffers(s.server)
    ensures Published(After(s, ms, st).client.world.published, n, ty) <= Published(s.client.world.published, n, ty) + 1
  {
    RunOk(s, ms, st, written, n, ty);
    RunKeepsAllSelections(s, ms, st, written, n, ty);
    var s' := After(s, ms, st);
    SelectionsExtend(s.client.world.history, s.queue, n, ty, ForeignOffers(s.server));
    SelectionsGrow(s'.client.world.history, s'.queue, n, ty, ForeignOffers(s'.server));
  }
}
