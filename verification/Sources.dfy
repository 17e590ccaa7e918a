/** The data sources that the client creates: how they are used over whole runs, and what other
    clients are sent from them. */
module Sources {
  import opened Protocol
  import opened PipeReader
  import opened History
  import opened ClientSpec
  import opened ClientInvariant
  import opened Resolution
  import opened ClientRuns
  import opened ClientTheorems
  import opened Wire

  predicate HeldAt(w: World, n: SeatName, ty: SelectionType, s: SourceId) {
    n in w.seats && s in w.seats[n].sources.At(ty)
  }

  /** The requests that create the source of a publication and make it the selection. */
  function Creation(p: Publication): seq<Request> {
    [CreateSource(p.source)] + OfferTypes(p.source, p.offered) + [SetSelection(p.seat, p.ty, p.source)]
  }

  /** The source is still in the tables of the seat it was created for. */
  predicate Held(w: World, s: SourceId)
    requires s < |w.published|
  {
    HeldAt(w, w.published[s].seat, w.published[s].ty, s)
  }

  /** All requests about a source: created, offering all its types, then set once, for one seat and
      type; and destroyed once when it left the tables. */
  predicate SourceTraceOk(w: World, s: SourceId) {
    Filter(w.out, OnSource(s)) ==
    if s < |w.published| then Creation(w.published[s]) + if Held(w, s) then [] else [DestroySource(s)]
    else []
  }

  predicate JobOk(w: World, j: WriteJob) {
    && j.source < |w.published|
    && j.mime in w.published[j.source].data
    && j.data == w.published[j.source].data[j.mime]
  }

  /** What is true of the source `s`, whether it exists or not. */
  ghost predicate SourceOk(w: World, s: SourceId) {
    && (s in w.callbacks <==> s < |w.published|)
    && (s < |w.published| ==>
          && w.published[s].source == s
          && w.callbacks[s] == Callback(w.published[s].seat, w.published[s].ty, w.published[s].data))
    && SourceTraceOk(w, s)
    && (forall n, ty :: HeldAt(w, n, ty, s) ==>
          s < |w.published| && w.published[s].seat == n && w.published[s].ty == ty)
  }

  ghost predicate SourcesProper(w: World) {
    && w.nextSource == |w.published|
    && (forall s: SourceId :: SourceOk(w, s))
    && (forall j :: j in w.writes ==> JobOk(w, j))
  }

  // ----- steps that do not concern sources -----

  ghost predicate SameSources(w: World, w': World) {
    && w'.nextSource == w.nextSource && w'.callbacks == w.callbacks && w'.published == w.published &&
         w'.writes == w.writes
    && (forall n, ty, s :: HeldAt(w', n, ty, s) <==> HeldAt(w, n, ty, s))
    && w.out <= w'.out
    && (forall r, s :: r in w'.out[|w.out|..] ==> !OnSource(s)(r))
  }

  lemma SameSourcesProper(w: World, w': World)
    requires SourcesProper(w) && SameSources(w, w')
    ensures SourcesProper(w')
  {
    forall s: SourceId ensures SourceOk(w', s) {
      assert SourceOk(w, s);
      assert w'.out == w.out + w'.out[|w.out|..];
      FilterAppend(w.out, w'.out[|w.out|..], OnSource(s));
      FilterNone(w'.out[|w.out|..], OnSource(s));
    }
  }

  lemma SameSourcesTransitive(a: World, b: World, c: World)
    requires SameSources(a, b) && SameSources(b, c)
    ensures SameSources(a, c)
  {
    assert c.out[|a.out|..] == b.out[|a.out|..] + c.out[|b.out|..];
  }

  /** Only requests about offers, and only selections and offers change. */
  lemma EmitsNoSource(w: World, w': World, d: seq<Request>)
    requires w'.nextSource == w.nextSource && w'.callbacks == w.callbacks && w'.published == w.published &&
             w'.writes == w.writes
    requires w'.out == w.out + d && forall r :: r in d ==> r.Receive? || r.DestroyOffer? || r.Sync?
    requires w'.seats.Keys == w.seats.Keys && forall n :: n in w.seats ==> w'.seats[n].sources == w.seats[n].sources
    ensures SameSources(w, w')
  {
    assert w'.out[|w.out|..] == d;
  }

  lemma SwitchSameSources(w: World, n: SeatName, ty: SelectionType, s: Selection)
    requires n in w.seats
    ensures SameSources(w, Switch(w, n, ty, s)) && SameSources(w, Put(w, n, ty, s))
  {
    EmitsNoSource(w, Switch(w, n, ty, s), Teardown(At(w, n, ty)));
    EmitsNoSource(w, Put(w, n, ty, s), []);
  }

  lemma OfferEventsSameSources(w: World, e: Event, st: Settings, env: Env)
    requires e.DataOffer? || e.OfferedType? || e.Selected? || e.Done?
    ensures SameSources(w, Dispatch(w, e, st, env))
  {
    var w' := Dispatch(w, e, st, env);
    if e.Selected? {
      SelectedSends(w, e, st, env);
      SelectedSources(w, e, st, env);
      EmitsNoSource(w, w', if e.seat in w.seats then Teardown(At(w, e.seat, e.ty)) + Declined(w, e, st) else []);
    } else {
      EmitsNoSource(w, w', w'.out[|w.out|..]);
    }
  }

  lemma SelectedSources(w: World, e: Event, st: Settings, env: Env)
    requires e.Selected?
    ensures var w' := Dispatch(w, e, st, env);
            && w'.nextSource == w.nextSource && w'.callbacks == w.callbacks && w'.published == w.published &&
                 w'.writes == w.writes
            && w'.seats.Keys == w.seats.Keys
            && forall n :: n in w.seats ==> w'.seats[n].sources == w.seats[n].sources
  {
  }

  // ----- steps that destroy sources -----

  lemma DestroySourcesAbout(ss: seq<SourceId>, s: SourceId)
    requires NoDuplicates(ss)
    ensures Filter(DestroySources(ss), OnSource(s)) == if s in ss then [DestroySource(s)] else []
  {
    if s in ss {
      var i :| 0 <= i < |ss| && ss[i] == s;
      FilterOne(DestroySources(ss), OnSource(s), i);
    } else {
      FilterNone(DestroySources(ss), OnSource(s));
    }
  }

  lemma TeardownSources(n: SeatName, v: SeatView, env: Env, s: SourceId)
    requires EnvOk(env)
    ensures Filter(SeatTeardown(n, v, env), OnSource(s)) ==
            (if s in v.sources.regular then [DestroySource(s)] else [])
            + (if s in v.sources.primary then [DestroySource(s)] else [])
  {
    var a := DestroyOffers(env.order(v.offers.Keys)) + Teardown(v.selection.regular) + Teardown(v.selection.primary);
    var b, c := DestroySources(env.order(v.sources.regular)), DestroySources(env.order(v.sources.primary));
    var d := [DestroyDevice(n)];
    assert Lists(env.order(v.sources.regular), v.sources.regular);
    assert Lists(env.order(v.sources.primary), v.sources.primary);
    assert s in env.order(v.sources.regular) <==> s in Elements(env.order(v.sources.regular));
    assert s in env.order(v.sources.primary) <==> s in Elements(env.order(v.sources.primary));
    DestroySourcesAbout(env.order(v.sources.regular), s);
    DestroySourcesAbout(env.order(v.sources.primary), s);
    FilterNone(a, OnSource(s));
    FilterNone(d, OnSource(s));
    assert SeatTeardown(n, v, env) == a + b + c + d;
    FilterFour(a, b, c, d, OnSource(s));
  }

  lemma RemoveSeatSources(w: World, n: SeatName, st: Settings, env: Env)
    requires SourcesProper(w) && EnvOk(env)
    ensures SourcesProper(RemoveSeat(w, n, env))
  {
    if n in w.seats {
      var w' := RemoveSeat(w, n, env);
      forall s: SourceId ensures SourceOk(w', s) {
        assert SourceOk(w, s);
        assert forall m, ty :: HeldAt(w', m, ty, s) <==> HeldAt(w, m, ty, s) && m != n;
        FilterAppend(w.out, SeatTeardown(n, w.seats[n], env), OnSource(s));
        TeardownSources(n, w.seats[n], env, s);
        RemovedTrace(w, n, s);
      }
    }
  }

  lemma RemovedTrace(w: World, n: SeatName, s: SourceId)
    requires SourceOk(w, s) && n in w.seats
    ensures (if s in w.seats[n].sources.regular then [DestroySource(s)] else [])
            + (if s in w.seats[n].sources.primary then [DestroySource(s)] else []) ==
            if s < |w.published| && Held(w, s) && w.published[s].seat == n then [DestroySource(s)] else []
  {
    assert HeldAt(w, n, Regular, s) <==> s in w.seats[n].sources.regular;
    assert HeldAt(w, n, Primary, s) <==> s in w.seats[n].sources.primary;
  }

  lemma SeatEventSources(w: World, e: Event, st: Settings, env: Env)
    requires SourcesProper(w) && EnvOk(env) && (e.SeatAdded? || e.GlobalRemoved? || e.Finished?)
    ensures SourcesProper(Dispatch(w, e, st, env))
  {
    var w' := Dispatch(w, e, st, env);
    if e == SeatAdded(e.seat, false) {
      EmitsNoSource(w, w', []);
      SameSourcesProper(w, w');
    } else {
      RemoveSeatSources(w, e.seat, st, env);
      var w1 := RemoveSeat(w, e.seat, env);
      assert w'.out == w1.out && w'.published == w1.published;
      assert forall n, ty, s :: HeldAt(w', n, ty, s) <==> HeldAt(w1, n, ty, s);
      assert w'.out[|w1.out|..] == [];
      SameSourcesProper(w1, w');
    }
  }

  lemma CancelledHolds(w: World, e: Event, st: Settings, env: Env, n: SeatName, ty: SelectionType, s: SourceId)
    requires e.Cancelled? && e.source in w.callbacks
    requires HeldAt(w, w.callbacks[e.source].seat, w.callbacks[e.source].ty, e.source)
    ensures var w' := Dispatch(w, e, st, env);
            var cb := w.callbacks[e.source];
            && w'.out == w.out + [DestroySource(e.source)]
            && (HeldAt(w', n, ty, s) <==> HeldAt(w, n, ty, s) && !(s == e.source && n == cb.seat && ty == cb.ty))
  {
  }

  lemma DestroyedSourceOk(w: World, w': World, id: SourceId, s: SourceId)
    requires SourceOk(w, s) && w'.published == w.published && w'.callbacks == w.callbacks
    requires w'.out == w.out + [DestroySource(id)]
    requires forall n, ty :: HeldAt(w', n, ty, s) <==> HeldAt(w, n, ty, s) && s != id
    requires s == id ==> exists n, ty :: HeldAt(w, n, ty, s)
    ensures SourceOk(w', s)
  {
    var d := [DestroySource(id)];
    FilterAppend(w.out, d, OnSource(s));
    if s != id { FilterNone(d, OnSource(s)); } else { FilterAll(d, OnSource(s)); }
  }

  lemma CancelledSources(w: World, e: Event, st: Settings, env: Env)
    requires SourcesProper(w) && e.Cancelled?
    ensures SourcesProper(Dispatch(w, e, st, env))
  {
    var w' := Dispatch(w, e, st, env);
    if e.source in w.callbacks && HeldAt(w, w.callbacks[e.source].seat, w.callbacks[e.source].ty, e.source) {
      CancelledHolds(w, e, st, env, 0, Regular, 0);
      forall s: SourceId ensures SourceOk(w', s) {
        assert SourceOk(w, s);
        forall n, ty ensures HeldAt(w', n, ty, s) <==> HeldAt(w, n, ty, s) && s != e.source {
          CancelledHolds(w, e, st, env, n, ty, s);
        }
        DestroyedSourceOk(w, w', e.source, s);
      }
    } else {
      EmitsNoSource(w, w', []);
      SameSourcesProper(w, w');
    }
  }

  lemma SendEffect(w: World, e: Event, st: Settings, env: Env)
    requires e.Send?
    ensures var w' := Dispatch(w, e, st, env);
            && SameSources(w, w'.(writes := w.writes))
            && (w'.writes == w.writes
                || (e.source in w.callbacks && e.mime in w.callbacks[e.source].data &&
                    w'.writes == w.writes + [WriteJob(e.source, e.mime, e.fd, w.callbacks[e.source].data[e.mime])]))
  {
    EmitsNoSource(w, Dispatch(w, e, st, env).(writes := w.writes), []);
  }

  lemma SendSources(w: World, e: Event, st: Settings, env: Env)
    requires SourcesProper(w) && e.Send?
    ensures SourcesProper(Dispatch(w, e, st, env))
  {
    var w' := Dispatch(w, e, st, env);
    SendEffect(w, e, st, env);
    SameSourcesProper(w, w'.(writes := w.writes));
    forall s: SourceId ensures SourceOk(w', s) {
      assert SourceOk(w'.(writes := w.writes), s);
      assert forall n, ty :: HeldAt(w', n, ty, s) <==> HeldAt(w'.(writes := w.writes), n, ty, s);
    }
    assert SourceOk(w, e.source);
  }

  lemma DispatchSources(w: World, e: Event, st: Settings, env: Env)
    requires SourcesProper(w) && EnvOk(env)
    ensures SourcesProper(Dispatch(w, e, st, env))
  {
    match e {
      case Send(_, _, _, _) => SendSources(w, e, st, env);
      case Cancelled(_) => CancelledSources(w, e, st, env);
      case SeatAdded(_, _) => SeatEventSources(w, e, st, env);
      case GlobalRemoved(_, _) => SeatEventSources(w, e, st, env);
      case Finished(_) => SeatEventSources(w, e, st, env);
      case _ =>
        OfferEventsSameSources(w, e, st, env);
        SameSourcesProper(w, Dispatch(w, e, st, env));
    }
  }

  // ----- publication -----

  lemma CreationAbout(p: Publication, s: SourceId)
    ensures Filter(Creation(p), OnSource(s)) == if s == p.source then Creation(p) else []
  {
    if s == p.source {
      FilterAll(Creation(p), OnSource(s));
    } else {
      FilterNone(Creation(p), OnSource(s));
    }
  }

  lemma SetClipboardEffect(w: World, n: SeatName, ty: SelectionType, ordered: seq<Mime>, data: map<Mime, Bytes>)
    requires At(w, n, ty).Some? && !IsReading(w, n, ty) && !HeldAt(w, n, ty, w.nextSource)
    ensures var w', id := SetClipboard(w, n, ty, ordered, data), w.nextSource;
            var p := Publication(n, ty, id, Keep(ordered, data.Keys), data, w.history, FaultyTypes(w, n, ty));
            && w'.published == w.published + [p] && w'.nextSource == id + 1 && w'.writes == w.writes
            && w'.callbacks == w.callbacks[id := Callback(n, ty, data)]
            && w'.out == w.out + Creation(p)
            && forall m, tz, s :: HeldAt(w', m, tz, s) <==> HeldAt(w, m, tz, s) || (m == n && tz == ty && s == id)
  {
  }

  lemma SetClipboardSources(w: World, n: SeatName, ty: SelectionType, ordered: seq<Mime>, data: map<Mime, Bytes>)
    requires SourcesProper(w) && At(w, n, ty).Some? && !IsReading(w, n, ty)
    ensures SourcesProper(SetClipboard(w, n, ty, ordered, data))
  {
    var w', id := SetClipboard(w, n, ty, ordered, data), w.nextSource;
    assert SourceOk(w, id);
    SetClipboardEffect(w, n, ty, ordered, data);
    var p := w'.published[id];
    forall s: SourceId ensures SourceOk(w', s) {
      assert SourceOk(w, s);
      FilterAppend(w.out, Creation(p), OnSource(s));
      CreationAbout(p, s);
    }
    forall j | j in w'.writes ensures JobOk(w', j) {
      assert JobOk(w, j);
    }
  }

  // ----- the other steps -----

  lemma PrepareSources(w: World, n: SeatName, ty: SelectionType, st: Settings, env: Env)
    ensures SameSources(w, Prepare(w, n, ty, st, env).0)
  {
    if IsReading(w, n, ty) {
      var s := At(w, n, ty).value;
      var c := CreatePipes(env.typeOrder(s.unique), OpenFor(env, n, ty), st);
      var w1 := Emit(NoteFaults(w, s.offer, c.faulty), Receives(s.offer, c.pipes));
      EmitsNoSource(w, w1, Receives(s.offer, c.pipes));
      SwitchSameSources(w1, n, ty, Waiting);
      SwitchSameSources(w1, n, ty, ReadMimes(s.offer, s.ordered, {}, s.bytesRead, s.fds + Unmarked(c.pipes)));
      if c.error || c.pipes == [] {
        SameSourcesTransitive(w, w1, Switch(w1, n, ty, Waiting));
      } else {
        SameSourcesTransitive(w, w1, Put(w1, n, ty,
                                         ReadMimes(s.offer, s.ordered, {}, s.bytesRead, s.fds + Unmarked(c.pipes))));
      }
    } else if n in w.seats {
      SwitchSameSources(w, n, ty, Waiting);
      EmitsNoSource(w, w, []);
    }
  }

  lemma {:induction false} PrepareAllSources(w: World, slots: seq<Slot>, st: Settings, env: Env)
    requires SourcesProper(w)
    ensures SourcesProper(PrepareAll(w, slots, st, env).0)
  {
    if slots != [] {
      var last := slots[|slots| - 1];
      PrepareAllSources(w, slots[..|slots| - 1], st, env);
      var w1 := PrepareAll(w, slots[..|slots| - 1], st, env).0;
      PrepareSources(w1, last.seat, last.ty, st, env);
      SameSourcesProper(w1, Prepare(w1, last.seat, last.ty, st, env).0);
    }
  }

  lemma {:induction false} ResolveAllSources(w: World, awaiting: seq<Awaiting>)
    requires SourcesProper(w)
    ensures ResolveAll(w, awaiting).Continues? ==> SourcesProper(ResolveAll(w, awaiting).world)
  {
    if awaiting != [] && ResolveAll(w, awaiting).Continues? {
      var front, a := awaiting[..|awaiting| - 1], awaiting[|awaiting| - 1];
      ResolveAllSources(w, front);
      var w1 := ResolveAll(w, front).world;
      if IsReading(w1, a.seat, a.ty) {
        var s := At(w1, a.seat, a.ty).value;
        SwitchSameSources(w1, a.seat, a.ty, Waiting);
        SwitchSameSources(w1, a.seat, a.ty, GotPipes(s.ordered, Reader(a.pipes, s.bytesRead, 0, 0)));
      }
      EmitsNoSource(w1, w1, []);
      SameSourcesProper(w1, ResolveAll(w, awaiting).world);
    }
  }

  lemma {:induction false} PublishAllSources(w: World, slots: seq<Slot>)
    requires SourcesProper(w)
    ensures SourcesProper(PublishAll(w, slots))
  {
    if slots != [] {
      PublishAllSources(w, slots[..|slots| - 1]);
      var w1, last := PublishAll(w, slots[..|slots| - 1]), slots[|slots| - 1];
      if !Posted(w1, last.seat, last.ty) {
        SetClipboardSources(w1, last.seat, last.ty, At(w1, last.seat, last.ty).value.ordered,
                            At(w1, last.seat, last.ty).value.data);
      }
    }
  }

  lemma NoteFaultSources(w: World, n: SeatName, ty: SelectionType, m: Mime)
    ensures SameSources(w, NoteFault(w, n, ty, m))
  {
    EmitsNoSource(w, NoteFault(w, n, ty, m), []);
  }

  lemma SwitchSources(w: World, n: SeatName, ty: SelectionType, s: Selection)
    requires SourcesProper(w) && n in w.seats
    ensures SourcesProper(Switch(w, n, ty, s)) && SourcesProper(Put(w, n, ty, s))
  {
    SwitchSameSources(w, n, ty, s);
    SameSourcesProper(w, Switch(w, n, ty, s));
    SameSourcesProper(w, Put(w, n, ty, s));
  }

  lemma DeliverSources(w: World, n: SeatName, ty: SelectionType, i: nat, d: Delivery, st: Settings)
    requires SourcesProper(w) && CanRead(w, n, ty, i)
    ensures Deliver(w, n, ty, i, d, st).Continues? ==> SourcesProper(Deliver(w, n, ty, i, d, st).world)
  {
    var s := At(w, n, ty).value;
    var step := Wake(s.reader, i, d, st);
    NoteFaultSources(w, n, ty, s.reader.pipes[i].mime);
    var w1 := if d.Broken? then NoteFault(w, n, ty, s.reader.pipes[i].mime) else w;
    if d.Broken? { SameSourcesProper(w, w1); }
    assert At(w1, n, ty) == At(w, n, ty);
    match step.verdict
    case Pending => SwitchSources(w1, n, ty, s.(reader := step.reader));
    case Abandoned(_) => SwitchSources(w1, n, ty, Waiting);
    case Unreachable =>
    case Complete =>
      if Collect(step.reader.pipes).Some? {
        var data := Collect(step.reader.pipes).value;
        if data == map[] {
          SwitchSources(w1, n, ty, Waiting);
        } else if w.seats[n].offers == map[] {
          SetClipboardSources(w1, n, ty, s.ordered, data);
        } else {
          SwitchSources(w1, n, ty, GotData(s.ordered, data));
        }
      }
  }

  lemma {:induction false} DispatchAllSources(w: World, batch: seq<Event>, st: Settings, env: Env)
    requires SourcesProper(w) && EnvOk(env)
    ensures SourcesProper(DispatchAll(w, batch, st, env))
  {
    if batch != [] {
      DispatchAllSources(w, batch[..|batch| - 1], st, env);
      DispatchSources(DispatchAll(w, batch[..|batch| - 1], st, env), batch[|batch| - 1], st, env);
    }
  }

  lemma TurnSources(w: World, st: Settings, env: Env)
    requires SourcesProper(w)
    ensures SourcesProper(TakeTurn(w, st, env).world)
  {
    var slots := Slots(env.order(w.seats.Keys));
    PrepareAllSources(w, slots, st, env);
    var (w1, awaiting) := PrepareAll(w, slots, st, env);
    if awaiting == [] {
      PublishAllSources(w1, Slots(env.order(w1.seats.Keys)));
    } else {
      EmitsNoSource(w1, Emit(ClearFlags(w1), [Sync]), [Sync]);
      SameSourcesProper(w1, Emit(ClearFlags(w1), [Sync]));
    }
  }

  lemma ApplySources(c: Client, a: Action, st: Settings)
    requires SourcesProper(c.world) && Enabled(c, a)
    ensures SourcesProper(Apply(c, a, st).world)
  {
    if a.PipeReady? {
      DeliverSources(c.world, a.seat, a.ty, a.pipe, a.delivery, st);
    } else {
      DispatchAllSources(c.world, a.batch, st, a.env);
      var w1 := DispatchAll(c.world, a.batch, st, a.env);
      if a.Events? {
        TurnSources(w1, st, a.env);
      } else {
        ResolveAllSources(w1, c.phase.awaiting);
        if ResolveAll(w1, c.phase.awaiting).Continues? {
          var w2 := ResolveAll(w1, c.phase.awaiting).world;
          TurnSources(w2, st, a.env);
          PublishAllSources(w2, Slots(a.env.order(w2.seats.Keys)));
        }
      }
    }
  }

  /** Source discipline, over every run: the requests about a source are its creation, all its types,
      the one request that sets it, for the seat and type it was made for, and, once it has left the
      client's tables by cancellation or seat removal, exactly one destruction. */
  lemma {:induction false} SourcesAreUsedProperly(actions: seq<Action>, st: Settings, written: Content)
    requires LegalRun(actions, st, written)
    ensures SourcesProper(Run(actions, st).world)
  {
    if actions == [] {
      assert forall s: SourceId :: SourceOk(INITIAL.world, s);
    } else {
      var front := actions[..|actions| - 1];
      SourcesAreUsedProperly(front, st, written);
      ApplySources(Run(front, st), actions[|actions| - 1], st);
    }
  }

  // ----- the requests about a source, one by one -----

  /** `at` are the positions of the requests that `f` chooses, in order. */
  predicate ChosenAt(rs: seq<Request>, f: Request -> bool, at: seq<nat>) {
    && (forall i :: 0 <= i < |at| ==> at[i] < |rs| && f(rs[at[i]]))
    && (forall i, j :: 0 <= i < j < |at| ==> at[i] < at[j])
    && (forall k :: 0 <= k < |rs| && f(rs[k]) ==> k in at)
  }

  lemma {:induction false} FilterPositions(rs: seq<Request>, f: Request -> bool) returns (at: seq<nat>)
    ensures ChosenAt(rs, f, at) && |at| == |Filter(rs, f)|
    ensures forall i :: 0 <= i < |at| ==> rs[at[i]] == Filter(rs, f)[i]
  {
    if rs == [] {
      at := [];
    } else {
      var last := |rs| - 1;
      at := FilterPositions(rs[..last], f);
      ghost var before := at;
      assert rs == rs[..last] + [rs[last]];
      if f(rs[last]) {
        at := at + [last];
      }
      forall k | 0 <= k < |rs| && f(rs[k]) ensures k in at {
        if k < last {
          assert rs[..last][k] == rs[k];
          assert k in before;
        }
      }
    }
  }

  /** The whole trace of the source of a publication: at the positions `at`, and nowhere else, there is its
      creation, then one offer for each offered type in their order, then the one request that makes it the
      selection, and at most one destruction after that. */
  predicate OnTheWire(out: seq<Request>, p: Publication, at: seq<nat>) {
    var n := |p.offered|;
    && n + 2 <= |at| <= n + 3
    && (forall i :: 0 <= i < |at| ==> at[i] < |out|)
    && (forall i, j :: 0 <= i < j < |at| ==> at[i] < at[j])
    && out[at[0]] == CreateSource(p.source)
    && (forall i :: 0 <= i < n ==> out[at[i + 1]] == OfferType(p.source, p.offered[i]))
    && out[at[n + 1]] == SetSelection(p.seat, p.ty, p.source)
    && (|at| == n + 3 ==> out[at[n + 2]] == DestroySource(p.source))
    && (forall k :: 0 <= k < |out| && About(out[k], p.source) ==> k in at)
  }

  predicate About(r: Request, s: SourceId) {
    match r
    case CreateSource(x) => x == s
    case OfferType(x, _) => x == s
    case SetSelection(_, _, x) => x == s
    case DestroySource(x) => x == s
    case _ => false
  }

  /** Over every run the requests about a published source are just these. */
  lemma OfferedOnTheWire(actions: seq<Action>, st: Settings, written: Content, s: SourceId)
    requires LegalRun(actions, st, written) && s < |Run(actions, st).world.published|
    ensures var w := Run(actions, st).world;
            w.published[s].source == s && exists at :: OnTheWire(w.out, w.published[s], at)
  {
    SourcesAreUsedProperly(actions, st, written);
    var w := Run(actions, st).world;
    assert SourceOk(w, s);
    var at := FilterPositions(w.out, OnSource(s));
    var end := if Held(w, s) then [] else [DestroySource(s)];
    TraceOnTheWire(w.out, w.published[s], at, Filter(w.out, OnSource(s)), end);
  }

  lemma TraceOnTheWire(out: seq<Request>, p: Publication, at: seq<nat>, trace: seq<Request>, end: seq<Request>)
    requires ChosenAt(out, OnSource(p.source), at) && |at| == |trace|
    requires forall i :: 0 <= i < |at| ==> out[at[i]] == trace[i]
    requires trace == Creation(p) + end && (end == [] || end == [DestroySource(p.source)])
    ensures OnTheWire(out, p, at)
  {
    var n := |p.offered|;
    assert trace[0] == CreateSource(p.source) && trace[n + 1] == SetSelection(p.seat, p.ty, p.source);
    assert forall i :: 0 <= i < n ==> trace[i + 1] == OfferType(p.source, p.offered[i]);
    assert forall r :: About(r, p.source) ==> OnSource(p.source)(r);
  }

  // ----- pasting -----

  /** Pasting gives back what was copied: every task that writes to another client writes, for its
      MIME type, exactly the bytes that the client which was copied from wrote. */
  lemma PastedIsCopied(actions: seq<Action>, st: Settings, written: Content, j: WriteJob)
    requires LegalRun(actions, st, written) && j in Run(actions, st).world.writes
    ensures var w := Run(actions, st).world;
            j.source < |w.published| &&
            var p := w.published[j.source];
            && j.mime in p.offered
            && Origin(p.history, p.seat, p.ty).Some?
            && j.data == written(Origin(p.history, p.seat, p.ty).value, j.mime)
  {
    SourcesAreUsedProperly(actions, st, written);
    var w := Run(actions, st).world;
    assert JobOk(w, j);
    var p := w.published[j.source];
    EveryPublicationIsFaithful(actions, st, written, p);
    KeepFacts(Advertised(p.history, Origin(p.history, p.seat, p.ty).value), p.data.Keys);
  }

  /** A send request for an offered type always finds its data: unless it comes from ourselves or the
      descriptor is unusable, a task is started that writes them. */
  lemma SendFindsItsData(actions: seq<Action>, st: Settings, written: Content, s: SourceId, m: Mime, fd: Fd)
    requires LegalRun(actions, st, written)
    requires var w := Run(actions, st).world; s < |w.published| && m in w.published[s].offered
    requires var w := Run(actions, st).world;
             var p := w.published[s];
             !(IsReading(w, p.seat, p.ty) && fd in At(w, p.seat, p.ty).value.fds)
    ensures var w := Run(actions, st).world;
            m in w.published[s].data &&
            OnSend(w, s, m, fd, NoFault).writes == w.writes + [WriteJob(s, m, fd, w.published[s].data[m])]
  {
    SourcesAreUsedProperly(actions, st, written);
    var w := Run(actions, st).world;
    assert SourceOk(w, s);
    var p := w.published[s];
    EveryPublicationIsFaithful(actions, st, written, p);
    KeepFacts(Advertised(p.history, Origin(p.history, p.seat, p.ty).value), p.data.Keys);
  }
}
