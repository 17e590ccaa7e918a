/** Every seat that goes away has its device destroyed, once. */
module Devices {
  import opened Protocol
  import opened PipeReader
  import opened History
  import opened ClientSpec
  import opened ClientInvariant
  import opened Resolution
  import opened ClientRuns
  import opened Wire
  import opened Asked

  function OnDevice(n: SeatName): Request -> bool {
    (r: Request) => r.DestroyDevice? && r.seat == n
  }

  /** How often a seat of this name has gone away: it was removed, finished, or announced anew. */
  function Departures(h: History, n: SeatName): nat {
    if h.Start? then 0
    else Departures(h.past, n) + if Known(h.past, n) && (AddsSeat(h.event, n) || RemovesSeat(h.event, n)) then 1 else 0
  }

  ghost predicate DevicesOk(w: World) {
    forall n :: |Filter(w.out, OnDevice(n))| == Departures(w.history, n)
  }

  /** A step that is not about devices. */
  ghost predicate Silent(w: World, w': World) {
    && w'.history == w.history && w.out <= w'.out
    && (forall r :: r in w'.out[|w.out|..] ==> !r.DestroyDevice?)
  }

  lemma SilentBy(w: World, w': World, d: seq<Request>)
    requires w'.out == w.out + d && w'.history == w.history && forall r :: r in d ==> !r.DestroyDevice?
    ensures Silent(w, w')
  {
    assert w'.out[|w.out|..] == d;
  }

  lemma SilentTransitive(a: World, b: World, c: World)
    requires Silent(a, b) && Silent(b, c)
    ensures Silent(a, c)
  {
    assert c.out[|a.out|..] == b.out[|a.out|..] + c.out[|b.out|..];
  }

  lemma SilentOk(w: World, w': World)
    requires DevicesOk(w) && Silent(w, w')
    ensures DevicesOk(w')
  {
    forall n ensures |Filter(w'.out, OnDevice(n))| == Departures(w'.history, n) {
      assert w'.out == w.out + w'.out[|w.out|..];
      FilterAppend(w.out, w'.out[|w.out|..], OnDevice(n));
      FilterNone(w'.out[|w.out|..], OnDevice(n));
    }
  }

  // ----- events -----

  lemma TeardownDevice(m: SeatName, v: SeatView, env: Env, n: SeatName)
    ensures |Filter(SeatTeardown(m, v, env), OnDevice(n))| == if m == n then 1 else 0
  {
    var t := SeatTeardown(m, v, env);
    var front := t[..|t| - 1];
    assert t == front + [DestroyDevice(m)];
    FilterAppend(front, [DestroyDevice(m)], OnDevice(n));
    FilterNone(front, OnDevice(n));
    assert [DestroyDevice(m)][..0] == [];
  }

  predicate IsSeatEvent(e: Event) {
    e.SeatAdded? || e.GlobalRemoved? || e.Finished?
  }

  lemma SeatEventDevice(w: World, e: Event, n: SeatName, st: Settings, env: Env)
    requires IsSeatEvent(e) && (e.seat in w.seats <==> Known(w.history, e.seat))
    ensures var w' := Dispatch(w, e, st, env);
            && w.out <= w'.out
            && |Filter(w'.out[|w.out|..], OnDevice(n))| == Departures(w'.history, n) - Departures(w.history, n)
  {
    var w' := Dispatch(w, e, st, env);
    SeatEventOut(w, e, st, env);
    if e != SeatAdded(e.seat, false) && e.seat in w.seats {
      assert w'.out[|w.out|..] == SeatTeardown(e.seat, w.seats[e.seat], env);
      TeardownDevice(e.seat, w.seats[e.seat], env, n);
    } else {
      assert w'.out[|w.out|..] == [];
    }
  }

  /** What belongs to the device of the seat `n` is destroyed before it: the offers, then the sources. */
  predicate GoesInOrder(d: seq<Request>, n: SeatName) {
    && d != [] && d[|d| - 1] == DestroyDevice(n)
    && (forall i :: 0 <= i < |d| - 1 ==> d[i].DestroyOffer? || d[i].DestroySource?)
    && (forall i, j :: 0 <= i < j < |d| ==> d[j].DestroyOffer? ==> d[i].DestroyOffer?)
  }

  /** When a seat goes away, its device is the last of its objects to be destroyed, and its sources go only
      after its offers. */
  lemma DevicesGoLast(w: World, e: Event, st: Settings, env: Env)
    requires IsSeatEvent(e) && e != SeatAdded(e.seat, false) && e.seat in w.seats
    ensures var w' := Dispatch(w, e, st, env);
            w.out <= w'.out && GoesInOrder(w'.out[|w.out|..], e.seat)
  {
    var v := w.seats[e.seat];
    SeatEventOut(w, e, st, env);
    var offers := DestroyOffers(env.order(v.offers.Keys)) + Teardown(v.selection.regular)
                  + Teardown(v.selection.primary);
    var sources := DestroySources(env.order(v.sources.regular)) + DestroySources(env.order(v.sources.primary));
    assert SeatTeardown(e.seat, v, env) == offers + sources + [DestroyDevice(e.seat)];
    assert forall i :: 0 <= i < |offers| ==> offers[i].DestroyOffer?;
    assert forall i :: 0 <= i < |sources| ==> sources[i].DestroySource?;
    assert Dispatch(w, e, st, env).out[|w.out|..] == offers + sources + [DestroyDevice(e.seat)];
  }

  lemma OtherEventOut(w: World, e: Event, st: Settings, env: Env)
    requires !IsSeatEvent(e)
    ensures var w' := Dispatch(w, e, st, env);
            w.out <= w'.out && forall r :: r in w'.out[|w.out|..] ==> !r.DestroyDevice?
  {
    if e.Selected? { SelectedSends(w, e, st, env); }
  }

  lemma DispatchDevice(w: World, e: Event, n: SeatName, st: Settings, env: Env)
    requires forall m :: m in w.seats <==> Known(w.history, m)
    ensures var w' := Dispatch(w, e, st, env);
            && w.out <= w'.out
            && |Filter(w'.out[|w.out|..], OnDevice(n))| == Departures(w'.history, n) - Departures(w.history, n)
  {
    if IsSeatEvent(e) {
      SeatEventDevice(w, e, n, st, env);
    } else {
      OtherEventOut(w, e, st, env);
      FilterNone(Dispatch(w, e, st, env).out[|w.out|..], OnDevice(n));
    }
  }

  lemma DispatchDevices(w: World, e: Event, st: Settings, env: Env, written: Content)
    requires WorldOk(w, st, written) && DevicesOk(w)
    ensures DevicesOk(Dispatch(w, e, st, env))
  {
    var w' := Dispatch(w, e, st, env);
    forall m ensures m in w.seats <==> Known(w.history, m) {
      assert SeatOk(w, m, st);
    }
    forall n ensures |Filter(w'.out, OnDevice(n))| == Departures(w'.history, n) {
      DispatchDevice(w, e, n, st, env);
      assert w'.out == w.out + w'.out[|w.out|..];
      FilterAppend(w.out, w'.out[|w.out|..], OnDevice(n));
    }
  }

  lemma {:induction false} DispatchAllDevices(w: World, batch: seq<Event>, st: Settings, env: Env, written: Content)
    requires WorldOk(w, st, written) && FreshOffers(w.history, batch) && DevicesOk(w)
    ensures DevicesOk(DispatchAll(w, batch, st, env)) && WorldOk(DispatchAll(w, batch, st, env), st, written)
  {
    if batch != [] {
      var front, e := batch[..|batch| - 1], batch[|batch| - 1];
      DispatchAllDevices(w, front, st, env, written);
      var w1 := DispatchAll(w, front, st, env);
      DispatchAllHistory(w, front, st, env);
      DispatchDevices(w1, e, st, env, written);
      DispatchOk(w1, e, st, env, written);
    }
  }

  // ----- everything else -----

  lemma SwitchSilent(w: World, n: SeatName, ty: SelectionType, s: Selection)
    requires n in w.seats
    ensures Silent(w, Switch(w, n, ty, s)) && Silent(w, Put(w, n, ty, s))
  {
    SilentBy(w, Switch(w, n, ty, s), Teardown(At(w, n, ty)));
    SilentBy(w, Put(w, n, ty, s), []);
  }

  lemma PrepareSilent(w: World, n: SeatName, ty: SelectionType, st: Settings, env: Env)
    ensures Silent(w, Prepare(w, n, ty, st, env).0)
  {
    if IsReading(w, n, ty) {
      var s := At(w, n, ty).value;
      var c := CreatePipes(env.typeOrder(s.unique), OpenFor(env, n, ty), st);
      var w1 := Emit(NoteFaults(w, s.offer, c.faulty), Receives(s.offer, c.pipes));
      var s' := ReadMimes(s.offer, s.ordered, {}, s.bytesRead, s.fds + Unmarked(c.pipes));
      SilentBy(w, w1, Receives(s.offer, c.pipes));
      SwitchSilent(w1, n, ty, Waiting);
      SwitchSilent(w1, n, ty, s');
      SilentTransitive(w, w1, if c.error || c.pipes == [] then Switch(w1, n, ty, Waiting) else Put(w1, n, ty, s'));
    } else if n in w.seats {
      SwitchSilent(w, n, ty, Waiting);
      SilentBy(w, w, []);
    }
  }

  lemma {:induction false} PrepareAllSilent(w: World, slots: seq<Slot>, st: Settings, env: Env)
    ensures Silent(w, PrepareAll(w, slots, st, env).0)
  {
    if slots != [] {
      var w1, last := PrepareAll(w, slots[..|slots| - 1], st, env).0, slots[|slots| - 1];
      PrepareAllSilent(w, slots[..|slots| - 1], st, env);
      PrepareSilent(w1, last.seat, last.ty, st, env);
      SilentTransitive(w, w1, PrepareAll(w, slots, st, env).0);
    }
  }

  lemma {:induction false} ResolveAllSilent(w: World, awaiting: seq<Awaiting>)
    ensures ResolveAll(w, awaiting).Continues? ==> Silent(w, ResolveAll(w, awaiting).world)
  {
    if awaiting != [] && ResolveAll(w, awaiting).Continues? {
      var front, a := awaiting[..|awaiting| - 1], awaiting[|awaiting| - 1];
      ResolveAllSilent(w, front);
      var w1 := ResolveAll(w, front).world;
      if IsReading(w1, a.seat, a.ty) {
        var s := At(w1, a.seat, a.ty).value;
        SwitchSilent(w1, a.seat, a.ty, Waiting);
        SwitchSilent(w1, a.seat, a.ty, GotPipes(s.ordered, Reader(a.pipes, s.bytesRead, 0, 0)));
      }
      SilentBy(w1, w1, []);
      SilentTransitive(w, w1, ResolveAll(w, awaiting).world);
    }
  }

  lemma SetClipboardSilent(w: World, n: SeatName, ty: SelectionType, ordered: seq<Mime>, data: map<Mime, Bytes>)
    requires n in w.seats
    ensures Silent(w, SetClipboard(w, n, ty, ordered, data))
  {
    var s, w1 := w.nextSource, Announce(w, n, ty, ordered, data);
    SilentBy(w, w1, [CreateSource(s)] + OfferTypes(s, Keep(ordered, data.Keys))
                   + (if s in w.seats[n].sources.At(ty) then [DestroySource(s)] else []) + [SetSelection(n, ty, s)]);
    SwitchSilent(w1, n, ty, Waiting);
    SilentTransitive(w, w1, SetClipboard(w, n, ty, ordered, data));
  }

  lemma {:induction false} PublishAllSilent(w: World, slots: seq<Slot>)
    ensures Silent(w, PublishAll(w, slots))
  {
    if slots != [] {
      PublishAllSilent(w, slots[..|slots| - 1]);
      var w1, last := PublishAll(w, slots[..|slots| - 1]), slots[|slots| - 1];
      SilentBy(w1, w1, []);
      if !Posted(w1, last.seat, last.ty) {
        SetClipboardSilent(w1, last.seat, last.ty, At(w1, last.seat, last.ty).value.ordered,
                           At(w1, last.seat, last.ty).value.data);
      }
      SilentTransitive(w, w1, PublishAll(w, slots));
    }
  }

  lemma UsedSilent(w: World, n: SeatName, ty: SelectionType, ordered: seq<Mime>, data: map<Mime, Bytes>)
    requires n in w.seats
    ensures Silent(w, Used(w, n, ty, ordered, data))
  {
    SwitchSilent(w, n, ty, Waiting);
    SwitchSilent(w, n, ty, GotData(ordered, data));
    SetClipboardSilent(w, n, ty, ordered, data);
  }

  lemma DeliverSilent(w: World, n: SeatName, ty: SelectionType, i: nat, d: Delivery, st: Settings)
    requires CanRead(w, n, ty, i) && Deliver(w, n, ty, i, d, st).Continues?
    ensures Silent(w, Deliver(w, n, ty, i, d, st).world)
  {
    var s := At(w, n, ty).value;
    var step := Wake(s.reader, i, d, st);
    var w1 := if d.Broken? then NoteFault(w, n, ty, s.reader.pipes[i].mime) else w;
    assert w1.out == w.out && w1.seats == w.seats && w1.history == w.history;
    match step.verdict
    case Pending => SwitchSilent(w1, n, ty, s.(reader := step.reader));
    case Abandoned(_) => SwitchSilent(w1, n, ty, Waiting);
    case Complete => UsedSilent(w1, n, ty, s.ordered, Collect(step.reader.pipes).value);
  }

  lemma TurnDevices(w: World, st: Settings, env: Env)
    requires DevicesOk(w)
    ensures DevicesOk(TakeTurn(w, st, env).world)
  {
    var slots := Slots(env.order(w.seats.Keys));
    PrepareAllSilent(w, slots, st, env);
    var (w1, awaiting) := PrepareAll(w, slots, st, env);
    SilentOk(w, w1);
    if awaiting == [] {
      PublishAllDevices(w1, Slots(env.order(w1.seats.Keys)));
    } else {
      SilentBy(w1, Emit(ClearFlags(w1), [Sync]), [Sync]);
      SilentOk(w1, Emit(ClearFlags(w1), [Sync]));
    }
  }

  lemma PublishAllDevices(w: World, slots: seq<Slot>)
    requires DevicesOk(w)
    ensures DevicesOk(PublishAll(w, slots))
  {
    PublishAllSilent(w, slots);
    SilentOk(w, PublishAll(w, slots));
  }

  lemma ResolvedDevices(w: World, awaiting: seq<Awaiting>, st: Settings, env: Env)
    requires DevicesOk(w) && ResolveAll(w, awaiting).Continues?
    ensures var w' := ResolveAll(w, awaiting).world;
            DevicesOk(TakeTurn(w', st, env).world) && DevicesOk(PublishAll(w', Slots(env.order(w'.seats.Keys))))
  {
    var w' := ResolveAll(w, awaiting).world;
    ResolveAllSilent(w, awaiting);
    SilentOk(w, w');
    TurnDevices(w', st, env);
    PublishAllDevices(w', Slots(env.order(w'.seats.Keys)));
  }

  lemma PipeDevices(w: World, n: SeatName, ty: SelectionType, i: nat, d: Delivery, st: Settings)
    requires DevicesOk(w) && CanRead(w, n, ty, i) && Deliver(w, n, ty, i, d, st).Continues?
    ensures DevicesOk(Deliver(w, n, ty, i, d, st).world)
  {
    DeliverSilent(w, n, ty, i, d, st);
    SilentOk(w, Deliver(w, n, ty, i, d, st).world);
  }

  lemma EventsDevices(w: World, batch: seq<Event>, st: Settings, env: Env, written: Content)
    requires WorldOk(w, st, written) && FreshOffers(w.history, batch) && DevicesOk(w)
    ensures DevicesOk(OnEvents(w, batch, st, env).world)
  {
    DispatchAllDevices(w, batch, st, env, written);
    TurnDevices(DispatchAll(w, batch, st, env), st, env);
  }

  lemma RoundtripDevices(w: World, awaiting: seq<Awaiting>, batch: seq<Event>, st: Settings, env: Env, written: Content)
    requires WorldOk(w, st, written) && FreshOffers(w.history, batch) && DevicesOk(w)
    ensures DevicesOk(OnRoundtripDone(w, awaiting, batch, st, env).world)
  {
    DispatchAllDevices(w, batch, st, env, written);
    var w1 := DispatchAll(w, batch, st, env);
    if ResolveAll(w1, awaiting).Continues? {
      ResolvedDevices(w1, awaiting, st, env);
    }
  }

  lemma ApplyDevices(c: Client, a: Action, st: Settings, written: Content)
    requires ClientOk(c, st, written) && Legal(c, a, written) && DevicesOk(c.world)
    ensures DevicesOk(Apply(c, a, st).world)
  {
    match a
    case PipeReady(n, ty, i, d) =>
      DeliverOk(c.world, n, ty, i, d, st, written);
      PipeDevices(c.world, n, ty, i, d, st);
    case Events(batch, env) => EventsDevices(c.world, batch, st, env, written);
    case RoundtripDone(batch, env) => RoundtripDevices(c.world, c.phase.awaiting, batch, st, env, written);
  }

  /** In every run, the device of a seat is destroyed exactly as often as a seat of that name goes
      away, whether it is removed, finished, or replaced by a new announcement. */
  lemma {:induction false} DevicesAreDestroyedOnce(actions: seq<Action>, st: Settings, written: Content, n: SeatName)
    requires LegalRun(actions, st, written)
    ensures var w := Run(actions, st).world; |Filter(w.out, OnDevice(n))| == Departures(w.history, n)
  {
    RunDevices(actions, st, written);
  }

  lemma {:induction false} RunDevices(actions: seq<Action>, st: Settings, written: Content)
    requires LegalRun(actions, st, written)
    ensures DevicesOk(Run(actions, st).world)
  {
    if actions != [] {
      var front := actions[..|actions| - 1];
      RunDevices(front, st, written);
      RunsAreOk(front, st, written);
      ApplyDevices(Run(front, st), actions[|actions| - 1], st, written);
    }
  }
}
