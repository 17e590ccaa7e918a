/** Publications are paid for by selection events: a set of offers `foreign` such that only those ever
    get as far as being read bounds the number of publications. */
module Budget {
  import opened Protocol
  import opened PipeReader
  import opened History
  import opened ClientSpec
  import opened ClientInvariant
  import opened Resolution
  import opened ClientRuns
  import opened ClientTheorems

  /** The number of selection events of a seat and type that named one of the given offers. */
  function Selections(h: History, n: SeatName, ty: SelectionType, foreign: set<OfferId>): nat {
    if h.Start? then 0
    else
      Selections(h.past, n, ty, foreign)
      + if Selects(h.event, n, ty) && h.event.maybeOffer.Some? && h.event.maybeOffer.value in foreign then 1 else 0
  }

  /** The number of publications for a seat and type. */
  function Published(ps: seq<Publication>, n: SeatName, ty: SelectionType): nat {
    if ps == [] then 0
    else
      Published(ps[..|ps| - 1], n, ty)
      + if ps[|ps| - 1].seat == n && ps[|ps| - 1].ty == ty then 1 else 0
  }

  predicate PastReading(s: Option<Selection>) {
    s.Some? && (s.value.GotPipes? || s.value.GotData?)
  }

  /** Whether a publication is under way. */
  function UnderWay(w: World, n: SeatName, ty: SelectionType, foreign: set<OfferId>): nat {
    var s := At(w, n, ty);
    if PastReading(s) || (s.Some? && s.value.ReadMimes? && s.value.offer in foreign) then 1 else 0
  }

  /** What is left to spend. */
  function Balance(w: World, n: SeatName, ty: SelectionType, foreign: set<OfferId>): int {
    Selections(w.history, n, ty, foreign) - Published(w.published, n, ty) - UnderWay(w, n, ty, foreign)
  }

  predicate ReadsForeign(w: World, n: SeatName, ty: SelectionType, foreign: set<OfferId>) {
    PastReading(At(w, n, ty)) ==>
      Origin(w.history, n, ty).Some? && Origin(w.history, n, ty).value in foreign
  }

  /** Every publication so far was of a foreign offer. */
  predicate PaidFor(w: World, n: SeatName, ty: SelectionType, foreign: set<OfferId>) {
    forall p :: p in w.published && p.seat == n && p.ty == ty ==>
      Origin(p.history, n, ty).Some? && Origin(p.history, n, ty).value in foreign
  }

  /** A step that spends no more than it has, on foreign offers only. */
  predicate Thrifty(w: World, w': World, n: SeatName, ty: SelectionType, foreign: set<OfferId>) {
    && Balance(w, n, ty, foreign) <= Balance(w', n, ty, foreign)
    && (ReadsForeign(w, n, ty, foreign) && PaidFor(w, n, ty, foreign) ==>
          ReadsForeign(w', n, ty, foreign) && PaidFor(w', n, ty, foreign))
  }

  lemma DispatchThrifty(w: World, e: Event, n: SeatName, ty: SelectionType, st: Settings, env: Env,
                        foreign: set<OfferId>)
    ensures Thrifty(w, Dispatch(w, e, st, env), n, ty, foreign)
  {
    SlotEffect(w, e, n, ty, st, env);
    LedgersGrow(w, e, st, env);
  }

  lemma {:induction false} DispatchAllThrifty(w: World, batch: seq<Event>, n: SeatName, ty: SelectionType,
                                              st: Settings, env: Env, foreign: set<OfferId>)
    ensures Thrifty(w, DispatchAll(w, batch, st, env), n, ty, foreign)
  {
    if batch != [] {
      DispatchAllThrifty(w, batch[..|batch| - 1], n, ty, st, env, foreign);
      DispatchThrifty(DispatchAll(w, batch[..|batch| - 1], st, env), batch[|batch| - 1], n, ty, st, env, foreign);
    }
  }

  lemma PrepareThrifty(w: World, m: SeatName, tz: SelectionType, n: SeatName, ty: SelectionType, st: Settings, env: Env,
                       foreign: set<OfferId>)
    ensures Thrifty(w, Prepare(w, m, tz, st, env).0, n, ty, foreign)
  {
    PrepareEffect(w, m, tz, st, env);
    PrepareFrame(w, m, tz, st, env, n, ty);
  }

  lemma PrepareEffect(w: World, n: SeatName, ty: SelectionType, st: Settings, env: Env)
    ensures var w' := Prepare(w, n, ty, st, env).0;
            && w'.history == w.history
            && (IsReading(w', n, ty) ==> IsReading(w, n, ty) && At(w', n, ty).value.offer == At(w, n, ty).value.offer)
            && (PastReading(At(w', n, ty)) ==> At(w', n, ty) == At(w, n, ty))
  {
  }

  lemma {:induction false} PrepareAllThrifty(w: World, slots: seq<Slot>, n: SeatName, ty: SelectionType, st: Settings,
                                             env: Env, foreign: set<OfferId>)
    ensures Thrifty(w, PrepareAll(w, slots, st, env).0, n, ty, foreign)
  {
    if slots != [] {
      var last := slots[|slots| - 1];
      PrepareAllThrifty(w, slots[..|slots| - 1], n, ty, st, env, foreign);
      PrepareThrifty(PrepareAll(w, slots[..|slots| - 1], st, env).0, last.seat, last.ty, n, ty, st, env, foreign);
    }
  }

  /** An unflagged selection without a marked pipe is of a foreign offer. */
  predicate EchoFree(w: World, n: SeatName, ty: SelectionType, foreign: set<OfferId>) {
    IsReading(w, n, ty) && !Flag(w, n, ty) && !AnyMarked(At(w, n, ty).value.fds) ==> At(w, n, ty).value.offer in foreign
  }

  /** A selection is dropped, or goes on to be read: that spends nothing new if its offer is foreign. */
  lemma AnswerThrifty(w: World, s: Selection, m: SeatName, tz: SelectionType, n: SeatName, ty: SelectionType,
                      foreign: set<OfferId>)
    requires IsReading(w, m, tz) && (s.Waiting? || s.GotPipes?)
    requires m == n && tz == ty && s.GotPipes? ==>
               At(w, n, ty).value.offer in foreign && Origin(w.history, n, ty) == Some(At(w, n, ty).value.offer)
    ensures Thrifty(w, Switch(w, m, tz, s), n, ty, foreign)
  {
    SwitchOnly(w, m, tz, s);
  }

  lemma ResolveThrifty(w: World, a: Awaiting, n: SeatName, ty: SelectionType, foreign: set<OfferId>)
    requires EchoFree(w, n, ty, foreign) && Resolve(w, a).Continues?
    requires IsReading(w, n, ty) ==> Origin(w.history, n, ty) == Some(At(w, n, ty).value.offer)
    ensures Thrifty(w, Resolve(w, a).world, n, ty, foreign)
    ensures EchoFree(Resolve(w, a).world, n, ty, foreign)
    ensures var w' := Resolve(w, a).world;
            w'.history == w.history && (IsReading(w', n, ty) ==> At(w', n, ty) == At(w, n, ty))
  {
    if IsReading(w, a.seat, a.ty) && !Flag(w, a.seat, a.ty) {
      var s := At(w, a.seat, a.ty).value;
      var s' := if AnyMarked(s.fds) then Waiting else GotPipes(s.ordered, Reader(a.pipes, s.bytesRead, 0, 0));
      AnswerThrifty(w, s', a.seat, a.ty, n, ty, foreign);
      SwitchOnly(w, a.seat, a.ty, s');
    }
  }

  lemma {:induction false} ResolveAllThrifty(w: World, awaiting: seq<Awaiting>, n: SeatName, ty: SelectionType,
                                             foreign: set<OfferId>)
    requires EchoFree(w, n, ty, foreign)
    requires IsReading(w, n, ty) ==> Origin(w.history, n, ty) == Some(At(w, n, ty).value.offer)
    ensures match ResolveAll(w, awaiting) case Panicked => true
            case Continues(w') =>
              && Thrifty(w, w', n, ty, foreign) && EchoFree(w', n, ty, foreign)
              && w'.history == w.history && (IsReading(w', n, ty) ==> At(w', n, ty) == At(w, n, ty))
  {
    if awaiting != [] {
      var front := awaiting[..|awaiting| - 1];
      ResolveAllThrifty(w, front, n, ty, foreign);
      if ResolveAll(w, front).Continues? && ResolveAll(w, awaiting).Continues? {
        ResolveThrifty(ResolveAll(w, front).world, awaiting[|awaiting| - 1], n, ty, foreign);
      }
    }
  }

  lemma SetClipboardThrifty(w: World, m: SeatName, tz: SelectionType, ordered: seq<Mime>, data: map<Mime, Bytes>,
                            n: SeatName, ty: SelectionType, foreign: set<OfferId>)
    requires PastReading(At(w, m, tz))
    ensures Thrifty(w, SetClipboard(w, m, tz, ordered, data), n, ty, foreign)
  {
    var w' := SetClipboard(w, m, tz, ordered, data);
    SetClipboardOnly(w, m, tz, ordered, data);
    assert w'.published[..|w'.published| - 1] == w.published;
  }

  lemma {:induction false} PublishAllThrifty(w: World, slots: seq<Slot>, n: SeatName, ty: SelectionType,
                                             foreign: set<OfferId>)
    ensures Thrifty(w, PublishAll(w, slots), n, ty, foreign)
  {
    if slots != [] {
      PublishAllThrifty(w, slots[..|slots| - 1], n, ty, foreign);
      var w1, last := PublishAll(w, slots[..|slots| - 1]), slots[|slots| - 1];
      if !Posted(w1, last.seat, last.ty) {
        var s := At(w1, last.seat, last.ty).value;
        SetClipboardThrifty(w1, last.seat, last.ty, s.ordered, s.data, n, ty, foreign);
      }
    }
  }

  lemma PutThrifty(w: World, m: SeatName, tz: SelectionType, s: Selection, n: SeatName, ty: SelectionType,
                   foreign: set<OfferId>)
    requires PastReading(At(w, m, tz)) && !s.ReadMimes?
    ensures Thrifty(w, Put(w, m, tz, s), n, ty, foreign) && Thrifty(w, Switch(w, m, tz, s), n, ty, foreign)
  {
    SwitchOnly(w, m, tz, s);
  }

  lemma UsedThrifty(w: World, m: SeatName, tz: SelectionType, ordered: seq<Mime>, data: map<Mime, Bytes>,
                    n: SeatName, ty: SelectionType, foreign: set<OfferId>)
    requires At(w, m, tz).Some? && At(w, m, tz).value.GotPipes?
    ensures Thrifty(w, Used(w, m, tz, ordered, data), n, ty, foreign)
  {
    if data == map[] {
      PutThrifty(w, m, tz, Waiting, n, ty, foreign);
    } else if w.seats[m].offers == map[] {
      SetClipboardThrifty(w, m, tz, ordered, data, n, ty, foreign);
    } else {
      PutThrifty(w, m, tz, GotData(ordered, data), n, ty, foreign);
    }
  }

  lemma DeliverThrifty(w: World, m: SeatName, tz: SelectionType, i: nat, d: Delivery, st: Settings,
                       n: SeatName, ty: SelectionType, foreign: set<OfferId>)
    requires CanRead(w, m, tz, i) && Deliver(w, m, tz, i, d, st).Continues?
    ensures Thrifty(w, Deliver(w, m, tz, i, d, st).world, n, ty, foreign)
  {
    var s := At(w, m, tz).value;
    var step := Wake(s.reader, i, d, st);
    var w1 := if d.Broken? then NoteFault(w, m, tz, s.reader.pipes[i].mime) else w;
    assert w1.seats == w.seats && w1.history == w.history && w1.published == w.published;
    assert Thrifty(w, w1, n, ty, foreign);
    match step.verdict
    case Pending => PutThrifty(w1, m, tz, s.(reader := step.reader), n, ty, foreign);
    case Abandoned(_) => PutThrifty(w1, m, tz, Waiting, n, ty, foreign);
    case Complete =>
      UsedThrifty(w1, m, tz, s.ordered, Collect(step.reader.pipes).value, n, ty, foreign);
  }

  lemma TurnThrifty(w: World, st: Settings, env: Env, n: SeatName, ty: SelectionType, foreign: set<OfferId>)
    ensures Thrifty(w, TakeTurn(w, st, env).world, n, ty, foreign)
  {
    var slots := Slots(env.order(w.seats.Keys));
    PrepareAllThrifty(w, slots, n, ty, st, env, foreign);
    var (w1, awaiting) := PrepareAll(w, slots, st, env);
    if awaiting == [] {
      PublishAllThrifty(w1, Slots(env.order(w1.seats.Keys)), n, ty, foreign);
    } else {
      assert At(Emit(ClearFlags(w1), [Sync]), n, ty) == At(w1, n, ty);
    }
  }

  lemma ThriftyTransitive(a: World, b: World, c: World, n: SeatName, ty: SelectionType, foreign: set<OfferId>)
    requires Thrifty(a, b, n, ty, foreign) && Thrifty(b, c, n, ty, foreign)
    ensures Thrifty(a, c, n, ty, foreign)
  {
  }

  lemma ResolvedThrifty(w1: World, awaiting: seq<Awaiting>, st: Settings, env: Env, n: SeatName, ty: SelectionType,
                        foreign: set<OfferId>)
    requires EchoFree(w1, n, ty, foreign)
    requires IsReading(w1, n, ty) ==> Origin(w1.history, n, ty) == Some(At(w1, n, ty).value.offer)
    ensures match ResolveAll(w1, awaiting) case Panicked => true
            case Continues(w2) =>
              && Thrifty(w1, TakeTurn(w2, st, env).world, n, ty, foreign)
              && Thrifty(w1, PublishAll(w2, Slots(env.order(w2.seats.Keys))), n, ty, foreign)
  {
    ResolveAllThrifty(w1, awaiting, n, ty, foreign);
    if ResolveAll(w1, awaiting).Continues? {
      var w2 := ResolveAll(w1, awaiting).world;
      TurnThrifty(w2, st, env, n, ty, foreign);
      PublishAllThrifty(w2, Slots(env.order(w2.seats.Keys)), n, ty, foreign);
      ThriftyTransitive(w1, w2, TakeTurn(w2, st, env).world, n, ty, foreign);
      ThriftyTransitive(w1, w2, PublishAll(w2, Slots(env.order(w2.seats.Keys))), n, ty, foreign);
    }
  }

  lemma RoundtripThrifty(w: World, awaiting: seq<Awaiting>, batch: seq<Event>, st: Settings, env: Env, written: Content,
                         n: SeatName, ty: SelectionType, foreign: set<OfferId>)
    requires WorldOk(DispatchAll(w, batch, st, env), st, written)
    requires EchoFree(DispatchAll(w, batch, st, env), n, ty, foreign)
    ensures Thrifty(w, OnRoundtripDone(w, awaiting, batch, st, env).world, n, ty, foreign)
  {
    var w1 := DispatchAll(w, batch, st, env);
    DispatchAllThrifty(w, batch, n, ty, st, env, foreign);
    if IsReading(w1, n, ty) {
      assert SelectionOk(w1.history, w1.out, w1.faults, n, ty, At(w1, n, ty).value, st, written);
    }
    ResolvedThrifty(w1, awaiting, st, env, n, ty, foreign);
    ThriftyTransitive(w, w1, OnRoundtripDone(w, awaiting, batch, st, env).world, n, ty, foreign);
  }

  /** A step of the client is thrifty if, at the end of a roundtrip, only foreign offers are left
      unmarked. */
  lemma ApplyThrifty(c: Client, a: Action, st: Settings, written: Content, n: SeatName, ty: SelectionType,
                     foreign: set<OfferId>)
    requires ClientOk(c, st, written) && Legal(c, a, written)
    requires a.RoundtripDone? ==> EchoFree(DispatchAll(c.world, a.batch, st, a.env), n, ty, foreign)
    ensures Thrifty(c.world, Apply(c, a, st).world, n, ty, foreign)
  {
    match a
    case PipeReady(m, tz, i, d) =>
      DeliverOk(c.world, m, tz, i, d, st, written);
      DeliverThrifty(c.world, m, tz, i, d, st, n, ty, foreign);
    case Events(batch, env) =>
      DispatchAllThrifty(c.world, batch, n, ty, st, env, foreign);
      var w1 := DispatchAll(c.world, batch, st, env);
      TurnThrifty(w1, st, env, n, ty, foreign);
      ThriftyTransitive(c.world, w1, TakeTurn(w1, st, env).world, n, ty, foreign);
    case RoundtripDone(batch, env) =>
      DispatchAllOk(c.world, batch, c.phase.awaiting, st, env, written);
      RoundtripThrifty(c.world, c.phase.awaiting, batch, st, env, written, n, ty, foreign);
  }
}
