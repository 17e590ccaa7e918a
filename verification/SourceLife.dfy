/** What the events say about the data sources: how long each one lives, and which of its readers are
    served. */
module SourceLife {
  import opened Protocol
  import opened PipeReader
  import opened History
  import opened ClientSpec
  import opened ClientInvariant
  import opened Resolution
  import opened ClientRuns
  import opened Wire
  import opened Sources
  import opened Asked

  // ----- who is served -----

  /** The task that a send request starts: if the descriptor is usable, the source has data of the type, and
      the request did not come back through a pipe of our own. */
  ghost function Served(w: World, e: Event): seq<WriteJob> {
    if && e.Send? && e.fault.NoFault? && e.source < |w.published|
       && var p := w.published[e.source];
          e.mime in p.data && !(IsReading(w, p.seat, p.ty) && e.fd in At(w, p.seat, p.ty).value.fds)
    then [WriteJob(e.source, e.mime, e.fd, w.published[e.source].data[e.mime])]
    else []
  }

  /** Exactly which tasks an event starts. */
  lemma EventServes(w: World, e: Event, st: Settings, env: Env)
    requires SourcesProper(w)
    ensures Dispatch(w, e, st, env).writes == w.writes + Served(w, e)
  {
    assert w.writes + [] == w.writes;
    if e.Send? {
      assert SourceOk(w, e.source);
    }
  }

  // ----- how long a source lives -----

  function Age(h: History): nat {
    if h.Start? then 0 else 1 + Age(h.past)
  }

  /** Since the history was `age` events long, the source has not been cancelled, and its seat has neither
      been added anew nor removed. */
  predicate Undisturbed(h: History, age: nat, n: SeatName, s: SourceId) {
    || Age(h) <= age
    || (&& h.event != Cancelled(s) && !AddsSeat(h.event, n) && !RemovesSeat(h.event, n)
        && Undisturbed(h.past, age, n, s))
  }

  ghost predicate LifeOk(w: World, s: SourceId)
    requires s < |w.published|
  {
    var p := w.published[s];
    && Age(p.history) <= Age(w.history)
    && (Held(w, s) <==> Undisturbed(w.history, Age(p.history), p.seat, s))
  }

  ghost predicate LivesOk(w: World) {
    forall s: SourceId :: s < |w.published| ==> LifeOk(w, s)
  }

  lemma EventHolds(w: World, e: Event, st: Settings, env: Env, s: SourceId)
    requires SourcesProper(w) && s < |w.published|
    ensures var w', p := Dispatch(w, e, st, env), w.published[s];
            && w'.published == w.published
            && (Held(w', s) <==> Held(w, s) && e != Cancelled(s) && !AddsSeat(e, p.seat) && !RemovesSeat(e, p.seat))
  {
    var w', p := Dispatch(w, e, st, env), w.published[s];
    assert SourceOk(w, s);
    match e {
      case Cancelled(x) =>
        if x in w.callbacks && HeldAt(w, w.callbacks[x].seat, w.callbacks[x].ty, x) {
          CancelledHolds(w, e, st, env, p.seat, p.ty, s);
        }
      case Selected(_, _, _) => OfferEventsSameSources(w, e, st, env);
      case DataOffer(_, _) => OfferEventsSameSources(w, e, st, env);
      case OfferedType(_, _, _) => OfferEventsSameSources(w, e, st, env);
      case Done => OfferEventsSameSources(w, e, st, env);
      case Send(_, _, _, _) => SendEffect(w, e, st, env);
      case _ => SeatEventHolds(w, e, st, env, p.seat, p.ty, s);
    }
  }

  lemma SeatEventHolds(w: World, e: Event, st: Settings, env: Env, n: SeatName, ty: SelectionType, s: SourceId)
    requires e.SeatAdded? || e.GlobalRemoved? || e.Finished?
    ensures var w' := Dispatch(w, e, st, env);
            && w'.published == w.published
            && (HeldAt(w', n, ty, s) <==> HeldAt(w, n, ty, s) && !AddsSeat(e, n) && !RemovesSeat(e, n))
  {
  }

  lemma DispatchLives(w: World, e: Event, st: Settings, env: Env)
    requires SourcesProper(w) && LivesOk(w)
    ensures LivesOk(Dispatch(w, e, st, env))
  {
    var w' := Dispatch(w, e, st, env);
    LedgersGrow(w, e, st, env);
    forall s: SourceId | s < |w'.published| ensures LifeOk(w', s) {
      assert LifeOk(w, s);
      EventHolds(w, e, st, env, s);
    }
  }

  lemma {:induction false} DispatchAllLives(w: World, batch: seq<Event>, st: Settings, env: Env)
    requires SourcesProper(w) && LivesOk(w) && EnvOk(env)
    ensures LivesOk(DispatchAll(w, batch, st, env))
  {
    if batch != [] {
      var front := batch[..|batch| - 1];
      DispatchAllLives(w, front, st, env);
      DispatchAllSources(w, front, st, env);
      DispatchLives(DispatchAll(w, front, st, env), batch[|batch| - 1], st, env);
    }
  }

  // ----- the other steps only add sources, and start no tasks -----

  ghost predicate AddsSources(w: World, w': World) {
    && w'.history == w.history && w'.writes == w.writes && w.published <= w'.published
    && (forall s: SourceId :: s < |w.published| ==> (Held(w', s) <==> Held(w, s)))
    && (forall s: SourceId :: |w.published| <= s < |w'.published| ==>
          w'.published[s].history == w.history && Held(w', s))
  }

  lemma AddedLives(w: World, w': World)
    requires LivesOk(w) && AddsSources(w, w')
    ensures LivesOk(w')
  {
    forall s: SourceId | s < |w'.published| ensures LifeOk(w', s) {
      if s < |w.published| { assert LifeOk(w, s); }
    }
  }

  lemma AddsTwice(a: World, b: World, c: World)
    requires AddsSources(a, b) && AddsSources(b, c)
    ensures AddsSources(a, c)
  {
  }

  lemma SameAdds(w: World, w': World)
    requires SameSources(w, w') && w'.history == w.history
    ensures AddsSources(w, w')
  {
  }

  lemma SetClipboardAdds(w: World, n: SeatName, ty: SelectionType, ordered: seq<Mime>, data: map<Mime, Bytes>)
    requires SourcesProper(w) && At(w, n, ty).Some? && !IsReading(w, n, ty)
    ensures AddsSources(w, SetClipboard(w, n, ty, ordered, data))
  {
    assert SourceOk(w, w.nextSource);
    SetClipboardEffect(w, n, ty, ordered, data);
    var w' := SetClipboard(w, n, ty, ordered, data);
    forall s: SourceId | s < |w.published| ensures Held(w', s) <==> Held(w, s) {
      assert SourceOk(w, s);
    }
  }

  lemma {:induction false} PrepareAllAdds(w: World, slots: seq<Slot>, st: Settings, env: Env)
    ensures AddsSources(w, PrepareAll(w, slots, st, env).0)
  {
    if slots != [] {
      var last, w1 := slots[|slots| - 1], PrepareAll(w, slots[..|slots| - 1], st, env).0;
      PrepareAllAdds(w, slots[..|slots| - 1], st, env);
      PrepareSources(w1, last.seat, last.ty, st, env);
      PrepareHistory(w1, last.seat, last.ty, st, env);
      SameAdds(w1, Prepare(w1, last.seat, last.ty, st, env).0);
      AddsTwice(w, w1, PrepareAll(w, slots, st, env).0);
    }
  }

  lemma PrepareHistory(w: World, n: SeatName, ty: SelectionType, st: Settings, env: Env)
    ensures Prepare(w, n, ty, st, env).0.history == w.history
  {
  }

  lemma {:induction false} ResolveAllAdds(w: World, awaiting: seq<Awaiting>)
    ensures ResolveAll(w, awaiting).Continues? ==> AddsSources(w, ResolveAll(w, awaiting).world)
  {
    if awaiting != [] && ResolveAll(w, awaiting).Continues? {
      var front, a := awaiting[..|awaiting| - 1], awaiting[|awaiting| - 1];
      ResolveAllAdds(w, front);
      var w1 := ResolveAll(w, front).world;
      ResolveAdds(w1, a);
      AddsTwice(w, w1, ResolveAll(w, awaiting).world);
    }
  }

  lemma ResolveAdds(w: World, a: Awaiting)
    requires Resolve(w, a).Continues?
    ensures AddsSources(w, Resolve(w, a).world)
  {
    if IsReading(w, a.seat, a.ty) {
      var s := At(w, a.seat, a.ty).value;
      SwitchSameSources(w, a.seat, a.ty, Waiting);
      SwitchSameSources(w, a.seat, a.ty, GotPipes(s.ordered, Reader(a.pipes, s.bytesRead, 0, 0)));
    }
    EmitsNoSource(w, w, []);
    SameAdds(w, Resolve(w, a).world);
  }

  lemma {:induction false} PublishAllAdds(w: World, slots: seq<Slot>)
    requires SourcesProper(w)
    ensures AddsSources(w, PublishAll(w, slots))
  {
    if slots != [] {
      var last, w1 := slots[|slots| - 1], PublishAll(w, slots[..|slots| - 1]);
      PublishAllAdds(w, slots[..|slots| - 1]);
      PublishAllSources(w, slots[..|slots| - 1]);
      if !Posted(w1, last.seat, last.ty) {
        var s := At(w1, last.seat, last.ty).value;
        SetClipboardAdds(w1, last.seat, last.ty, s.ordered, s.data);
        AddsTwice(w, w1, PublishAll(w, slots));
      }
    }
  }

  lemma TurnAdds(w: World, st: Settings, env: Env)
    requires SourcesProper(w)
    ensures AddsSources(w, TakeTurn(w, st, env).world)
  {
    var slots := Slots(env.order(w.seats.Keys));
    PrepareAllAdds(w, slots, st, env);
    PrepareAllSources(w, slots, st, env);
    var (w1, awaiting) := PrepareAll(w, slots, st, env);
    if awaiting == [] {
      PublishAllAdds(w1, Slots(env.order(w1.seats.Keys)));
    } else {
      EmitsNoSource(w1, Emit(ClearFlags(w1), [Sync]), [Sync]);
      SameAdds(w1, Emit(ClearFlags(w1), [Sync]));
    }
    AddsTwice(w, w1, TakeTurn(w, st, env).world);
  }

  lemma DeliverAdds(w: World, n: SeatName, ty: SelectionType, i: nat, d: Delivery, st: Settings)
    requires SourcesProper(w) && CanRead(w, n, ty, i) && Deliver(w, n, ty, i, d, st).Continues?
    ensures AddsSources(w, Deliver(w, n, ty, i, d, st).world)
  {
    var s := At(w, n, ty).value;
    var step := Wake(s.reader, i, d, st);
    NoteFaultSources(w, n, ty, s.reader.pipes[i].mime);
    var w1 := if d.Broken? then NoteFault(w, n, ty, s.reader.pipes[i].mime) else w;
    assert At(w1, n, ty) == At(w, n, ty) && w1.history == w.history;
    if d.Broken? { SameSourcesProper(w, w1); SameAdds(w, w1); }
    assert AddsSources(w, w1);
    match step.verdict
    case Pending =>
      SwitchAdds(w1, n, ty, s.(reader := step.reader));
      AddsTwice(w, w1, Deliver(w, n, ty, i, d, st).world);
    case Abandoned(_) =>
      SwitchAdds(w1, n, ty, Waiting);
      AddsTwice(w, w1, Deliver(w, n, ty, i, d, st).world);
    case Unreachable =>
    case Complete =>
      UsedAdds(w1, n, ty, s.ordered, Collect(step.reader.pipes).value);
      AddsTwice(w, w1, Deliver(w, n, ty, i, d, st).world);
  }

  lemma SwitchAdds(w: World, n: SeatName, ty: SelectionType, s: Selection)
    requires n in w.seats
    ensures AddsSources(w, Switch(w, n, ty, s)) && AddsSources(w, Put(w, n, ty, s))
  {
    SwitchSameSources(w, n, ty, s);
    SameAdds(w, Switch(w, n, ty, s));
    SameAdds(w, Put(w, n, ty, s));
  }

  lemma UsedAdds(w: World, n: SeatName, ty: SelectionType, ordered: seq<Mime>, data: map<Mime, Bytes>)
    requires SourcesProper(w) && At(w, n, ty).Some? && !IsReading(w, n, ty)
    ensures AddsSources(w, Used(w, n, ty, ordered, data))
  {
    SwitchAdds(w, n, ty, Waiting);
    SwitchAdds(w, n, ty, GotData(ordered, data));
    SetClipboardAdds(w, n, ty, ordered, data);
  }

  /** A step of the client dispatches its events, and after that only adds sources. So send requests are
      the only thing that starts tasks, each as `EventServes` says. */
  lemma StepAddsSources(c: Client, a: Action, st: Settings, written: Content)
    requires ClientOk(c, st, written) && SourcesProper(c.world) && Legal(c, a, written)
    requires !Apply(c, a, st).phase.Crashed?
    ensures AddsSources(if a.PipeReady? then c.world else DispatchAll(c.world, a.batch, st, a.env),
                        Apply(c, a, st).world)
  {
    if a.PipeReady? {
      DeliverOk(c.world, a.seat, a.ty, a.pipe, a.delivery, st, written);
      DeliverAdds(c.world, a.seat, a.ty, a.pipe, a.delivery, st);
    } else {
      var w1 := DispatchAll(c.world, a.batch, st, a.env);
      DispatchAllSources(c.world, a.batch, st, a.env);
      if a.Events? {
        TurnAdds(w1, st, a.env);
      } else if !w1.managerRemoved {
        ResolveAllAdds(w1, c.phase.awaiting);
        ResolveAllSources(w1, c.phase.awaiting);
        var w2 := ResolveAll(w1, c.phase.awaiting).world;
        TurnAdds(w2, st, a.env);
        PublishAllAdds(w2, Slots(a.env.order(w2.seats.Keys)));
        AddsTwice(w1, w2, Apply(c, a, st).world);
      }
    }
  }

  lemma {:induction false} RunLives(actions: seq<Action>, st: Settings, written: Content)
    requires LegalRun(actions, st, written)
    ensures LivesOk(Run(actions, st).world)
  {
    if actions != [] {
      var front, a := actions[..|actions| - 1], actions[|actions| - 1];
      var c := Run(front, st);
      RunLives(front, st, written);
      RunsAreOk(front, st, written);
      SourcesAreUsedProperly(front, st, written);
      StepLives(c, a, st, written);
    }
  }

  lemma StepLives(c: Client, a: Action, st: Settings, written: Content)
    requires ClientOk(c, st, written) && SourcesProper(c.world) && LivesOk(c.world) && Legal(c, a, written)
    ensures LivesOk(Apply(c, a, st).world)
  {
    if a.PipeReady? {
      DeliverOk(c.world, a.seat, a.ty, a.pipe, a.delivery, st, written);
      StepAddsSources(c, a, st, written);
      AddedLives(c.world, Apply(c, a, st).world);
    } else {
      DispatchAllLives(c.world, a.batch, st, a.env);
      if !Apply(c, a, st).phase.Crashed? {
        StepAddsSources(c, a, st, written);
        AddedLives(DispatchAll(c.world, a.batch, st, a.env), Apply(c, a, st).world);
      }
    }
  }

  /** A source is destroyed exactly if, since its publication, it was cancelled or its seat was added anew or
      removed. */
  lemma DestroyedExactly(actions: seq<Action>, st: Settings, written: Content, s: SourceId)
    requires LegalRun(actions, st, written) && s < |Run(actions, st).world.published|
    ensures var w := Run(actions, st).world;
            var p := w.published[s];
            DestroySource(s) in w.out <==> !Undisturbed(w.history, Age(p.history), p.seat, s)
  {
    RunLives(actions, st, written);
    SourcesAreUsedProperly(actions, st, written);
    var w := Run(actions, st).world;
    assert LifeOk(w, s) && SourceOk(w, s);
    DestructionInTrace(w.out, w.published[s], s, if Held(w, s) then [] else [DestroySource(s)]);
  }

  lemma DestructionInTrace(out: seq<Request>, p: Publication, s: SourceId, end: seq<Request>)
    requires Filter(out, OnSource(s)) == Creation(p) + end
    ensures DestroySource(s) in out <==> DestroySource(s) in end
  {
    var r := DestroySource(s);
    assert r !in Creation(p);
    if r in out { FilterHas(out, OnSource(s), r); }
    if r in end {
      assert r in Creation(p) + end;
      FilterOnly(out, OnSource(s));
    }
  }
}
