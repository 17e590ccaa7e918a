/** Which pipes an offer was asked for: a selection that is being read knows the descriptors of all of
    them, and an offer that waits for its selection event was asked for none. */
module Asked {
  import opened Protocol
  import opened PipeReader
  import opened History
  import opened ClientSpec
  import opened ClientInvariant
  import opened Resolution
  import opened ClientRuns
  import opened Wire

  ghost predicate AskedOk(w: World) {
    forall r :: r in w.out && r.Receive? ==> Remembered(w, r)
  }

  ghost predicate Remembered(w: World, r: Request)
    requires r.Receive?
  {
    && (forall n :: !PendingAt(w, n, r.offer))
    && (forall n, ty :: ReadAt(w, n, ty, r.offer) ==> r.fd in At(w, n, ty).value.fds)
  }

  lemma {:induction false} FilterHas(rs: seq<Request>, f: Request -> bool, r: Request)
    requires r in rs && f(r)
    ensures r in Filter(rs, f)
  {
    var front, last := rs[..|rs| - 1], rs[|rs| - 1];
    assert rs == front + [last];
    if r in front { FilterHas(front, f, r); }
  }

  lemma {:induction false} FilterOnly(rs: seq<Request>, f: Request -> bool)
    ensures forall r :: r in Filter(rs, f) ==> r in rs && f(r)
  {
    if rs != [] {
      FilterOnly(rs[..|rs| - 1], f);
      assert rs == rs[..|rs| - 1] + [rs[|rs| - 1]];
    }
  }

  lemma AskedIsIntroduced(w: World, r: Request)
    requires OffersProper(w) && r in w.out && r.Receive?
    ensures r.offer in Introduced(w.history)
  {
    FilterHas(w.out, OnOffer(r.offer), r);
  }

  lemma RemovalAsksNothing(w: World, n: SeatName, env: Env)
    ensures var w' := RemoveSeat(w, n, env);
            w.out <= w'.out && forall r :: r in w'.out[|w.out|..] ==> !r.Receive?
  {
    if n in w.seats {
      assert RemoveSeat(w, n, env).out[|w.out|..] == SeatTeardown(n, w.seats[n], env);
    }
  }

  lemma SeatEventOut(w: World, e: Event, st: Settings, env: Env)
    requires e.SeatAdded? || e.GlobalRemoved? || e.Finished?
    ensures Dispatch(w, e, st, env).out == if e == SeatAdded(e.seat, false) then w.out
                                           else RemoveSeat(w, e.seat, env).out
  {
  }

  /** No event makes the client ask for anything. */
  lemma DispatchAsksNothing(w: World, e: Event, st: Settings, env: Env)
    requires EnvOk(env)
    ensures var w' := Dispatch(w, e, st, env);
            w.out <= w'.out && forall r :: r in w'.out[|w.out|..] ==> !r.Receive?
  {
    if e.Selected? {
      SelectedSends(w, e, st, env);
    } else if e.SeatAdded? || e.GlobalRemoved? || e.Finished? {
      SeatEventOut(w, e, st, env);
      RemovalAsksNothing(w, e.seat, env);
    }
  }

  lemma RememberedLater(w: World, e: Event, r: Request, st: Settings, env: Env, written: Content)
    requires WorldOk(w, st, written) && FreshOffer(w.history, e) && r.Receive? && Remembered(w, r)
    requires r.offer in Introduced(w.history)
    ensures Remembered(Dispatch(w, e, st, env), r)
  {
    var w', o := Dispatch(w, e, st, env), r.offer;
    forall n ensures !PendingAt(w', n, o) {
      PendingComesFrom(w, e, n, o, st, env);
    }
    forall n, ty | ReadAt(w', n, ty, o)
      ensures r.fd in At(w', n, ty).value.fds
    {
      SlotEffect(w, e, n, ty, st, env);
      assert Selects(e, n, ty) ==> PendingAt(w, n, o);
      MarksGrow(w, e, n, ty, st, env);
    }
  }

  lemma PendingComesFrom(w: World, e: Event, n: SeatName, o: OfferId, st: Settings, env: Env)
    ensures PendingAt(Dispatch(w, e, st, env), n, o) ==> PendingAt(w, n, o) || (e == DataOffer(n, o) && n in w.seats)
  {
    if e.Selected? { SelectedTables(w, e, n, st, env); }
  }

  lemma DispatchAsked(w: World, e: Event, st: Settings, env: Env, written: Content)
    requires WorldOk(w, st, written) && FreshOffer(w.history, e) && EnvOk(env) && OffersProper(w) && AskedOk(w)
    ensures AskedOk(Dispatch(w, e, st, env))
  {
    var w' := Dispatch(w, e, st, env);
    DispatchAsksNothing(w, e, st, env);
    forall r | r in w'.out && r.Receive? ensures Remembered(w', r) {
      assert w'.out == w.out + w'.out[|w.out|..];
      AskedIsIntroduced(w, r);
      RememberedLater(w, e, r, st, env, written);
    }
  }

  /** A step on one slot that remembers what it asks for. */
  ghost predicate AsksOnly(w: World, w': World, n: SeatName, ty: SelectionType) {
    && OnlySlot(w, w', n, ty)
    && (IsReading(w', n, ty) ==>
          && IsReading(w, n, ty) && At(w', n, ty).value.offer == At(w, n, ty).value.offer
          && At(w, n, ty).value.fds.Keys <= At(w', n, ty).value.fds.Keys)
    && (forall r :: r in w'.out[|w.out|..] && r.Receive? ==>
          && IsReading(w, n, ty) && r.offer == At(w, n, ty).value.offer
          && (IsReading(w', n, ty) ==> r.fd in At(w', n, ty).value.fds))
  }

  lemma SlotAsked(w: World, w': World, n: SeatName, ty: SelectionType, st: Settings, written: Content)
    requires WorldOk(w, st, written) && AskedOk(w) && AsksOnly(w, w', n, ty)
    ensures AskedOk(w')
  {
    forall r | r in w'.out && r.Receive? ensures Remembered(w', r) {
      assert w'.out == w.out + w'.out[|w.out|..];
      OnePlaceOnly(w, r.offer, st, written);
      assert forall m :: PendingAt(w', m, r.offer) <==> PendingAt(w, m, r.offer);
      forall m, tz | ReadAt(w', m, tz, r.offer)
        ensures r.fd in At(w', m, tz).value.fds && ReadAt(w, m, tz, r.offer)
      {
        if m != n || tz != ty { assert At(w', m, tz) == At(w, m, tz); }
        assert ReadAt(w, m, tz, r.offer);
        if r in w.out { assert Remembered(w, r); }
      }
      if r in w.out { assert Remembered(w, r); } else { assert ReadAt(w, n, ty, r.offer); }
    }
  }

  lemma ReceivesRemembered(o: OfferId, pipes: seq<PipeRecord>, fds: map<Fd, bool>, r: Request)
    requires r in Receives(o, pipes)
    ensures r.Receive? && r.offer == o && r.fd in fds + Unmarked(pipes)
  {
    var i :| 0 <= i < |pipes| && Receives(o, pipes)[i] == r;
    UnmarkedKeys(pipes);
    assert pipes[i] in pipes;
  }

  lemma PrepareAsksOnly(w: World, n: SeatName, ty: SelectionType, st: Settings, env: Env, written: Content)
    requires WorldOk(w, st, written) && EnvOk(env) && Ripe(w, n, ty)
    ensures AsksOnly(w, Prepare(w, n, ty, st, env).0, n, ty)
  {
    PrepareOk(w, n, ty, st, env, written);
    if IsReading(w, n, ty) {
      PrepareReadingAsksOnly(w, n, ty, st, env);
    }
  }

  lemma PrepareReadingAsksOnly(w: World, n: SeatName, ty: SelectionType, st: Settings, env: Env)
    requires IsReading(w, n, ty) && OnlySlot(w, Prepare(w, n, ty, st, env).0, n, ty)
    ensures AsksOnly(w, Prepare(w, n, ty, st, env).0, n, ty)
  {
    var s := At(w, n, ty).value;
    var c := CreatePipes(env.typeOrder(s.unique), OpenFor(env, n, ty), st);
    PrepareReadingOut(w, n, ty, st, env, c);
    PrepareReadingFds(w, n, ty, st, env, c);
    var w' := Prepare(w, n, ty, st, env).0;
    var rest := if IsReading(w', n, ty) then [] else [DestroyOffer(s.offer)];
    assert w'.out[|w.out|..] == Receives(s.offer, c.pipes) + rest;
    forall r | r in w'.out[|w.out|..] && r.Receive?
      ensures r.offer == s.offer && (IsReading(w', n, ty) ==> r.fd in At(w', n, ty).value.fds)
    {
      assert r in Receives(s.offer, c.pipes);
      ReceivesRemembered(s.offer, c.pipes, s.fds, r);
    }
  }

  lemma PrepareReadingFds(w: World, n: SeatName, ty: SelectionType, st: Settings, env: Env, c: Created)
    requires IsReading(w, n, ty)
    requires c == CreatePipes(env.typeOrder(At(w, n, ty).value.unique), OpenFor(env, n, ty), st)
    ensures var w' := Prepare(w, n, ty, st, env).0;
            IsReading(w', n, ty) ==> At(w', n, ty).value.fds == At(w, n, ty).value.fds + Unmarked(c.pipes)
  {
  }

  lemma {:induction false} PrepareAllAsked(w: World, slots: seq<Slot>, st: Settings, env: Env, written: Content)
    requires WorldOk(w, st, written) && EnvOk(env) && NoDuplicates(slots) && AskedOk(w)
    requires forall n, ty :: Ripe(w, n, ty)
    ensures AskedOk(PrepareAll(w, slots, st, env).0)
  {
    if slots != [] {
      var front, last := slots[..|slots| - 1], slots[|slots| - 1];
      assert slots == front + [last];
      PrepareAllAsked(w, front, st, env, written);
      PrepareAllOk(w, front, st, env, written);
      assert last !in front && last == Slot(last.seat, last.ty);
      var w1 := PrepareAll(w, front, st, env).0;
      PrepareAsksOnly(w1, last.seat, last.ty, st, env, written);
      SlotAsked(w1, Prepare(w1, last.seat, last.ty, st, env).0, last.seat, last.ty, st, written);
    }
  }

  /** A step that asks for nothing and starts no reading. */
  lemma QuietAsked(w: World, w': World)
    requires AskedOk(w) && w.out <= w'.out && forall r :: r in w'.out[|w.out|..] ==> !r.Receive?
    requires forall n, o :: PendingAt(w', n, o) ==> PendingAt(w, n, o)
    requires forall n, ty :: IsReading(w', n, ty) ==> At(w', n, ty) == At(w, n, ty)
    ensures AskedOk(w')
  {
    forall r | r in w'.out && r.Receive? ensures Remembered(w', r) {
      assert w'.out == w.out + w'.out[|w.out|..];
      assert Remembered(w, r);
      forall n, ty | ReadAt(w', n, ty, r.offer) ensures r.fd in At(w', n, ty).value.fds {
        assert ReadAt(w, n, ty, r.offer);
      }
    }
  }

  lemma {:induction false} ResolveAllAsked(w: World, awaiting: seq<Awaiting>)
    requires AskedOk(w)
    ensures ResolveAll(w, awaiting).Continues? ==> AskedOk(ResolveAll(w, awaiting).world)
  {
    if awaiting != [] && ResolveAll(w, awaiting).Continues? {
      var front, a := awaiting[..|awaiting| - 1], awaiting[|awaiting| - 1];
      ResolveAllAsked(w, front);
      ResolveAsked(ResolveAll(w, front).world, a);
    }
  }

  lemma ResolveAsked(w: World, a: Awaiting)
    requires AskedOk(w) && Resolve(w, a).Continues?
    ensures AskedOk(Resolve(w, a).world)
  {
    var w' := Resolve(w, a).world;
    if IsReading(w, a.seat, a.ty) {
      assert w'.out[|w.out|..] == [] || w'.out[|w.out|..] == [DestroyOffer(At(w, a.seat, a.ty).value.offer)];
    }
    QuietAsked(w, w');
  }

  lemma SetClipboardAsked(w: World, n: SeatName, ty: SelectionType, ordered: seq<Mime>, data: map<Mime, Bytes>)
    requires AskedOk(w) && At(w, n, ty).Some? && !IsReading(w, n, ty)
    ensures AskedOk(SetClipboard(w, n, ty, ordered, data))
  {
    var w' := SetClipboard(w, n, ty, ordered, data);
    SetClipboardSends(w, n, ty, ordered, data);
    SetClipboardOnly(w, n, ty, ordered, data);
    assert forall r :: r in w'.out[|w.out|..] && r.Receive? ==> OnOffer(r.offer)(r);
    QuietAsked(w, w');
  }

  lemma {:induction false} PublishAllAsked(w: World, slots: seq<Slot>)
    requires AskedOk(w)
    ensures AskedOk(PublishAll(w, slots))
  {
    if slots != [] {
      PublishAllAsked(w, slots[..|slots| - 1]);
      var w1, last := PublishAll(w, slots[..|slots| - 1]), slots[|slots| - 1];
      if !Posted(w1, last.seat, last.ty) {
        SetClipboardAsked(w1, last.seat, last.ty, At(w1, last.seat, last.ty).value.ordered,
                          At(w1, last.seat, last.ty).value.data);
      }
    }
  }

  lemma DeliverAsked(w: World, n: SeatName, ty: SelectionType, i: nat, d: Delivery, st: Settings, written: Content)
    requires WorldOk(w, st, written) && CanRead(w, n, ty, i) && Genuine(w, n, ty, i, d, written) && AskedOk(w)
    ensures Deliver(w, n, ty, i, d, st).Continues? && AskedOk(Deliver(w, n, ty, i, d, st).world)
  {
    DeliverOk(w, n, ty, i, d, st, written);
    DeliverSends(w, n, ty, i, d, st);
    var w' := Deliver(w, n, ty, i, d, st).world;
    assert forall r :: r in w'.out[|w.out|..] && r.Receive? ==> OnOffer(r.offer)(r);
    QuietAsked(w, w');
  }

  lemma {:induction false} DispatchAllAsked(w: World, batch: seq<Event>, awaiting: seq<Awaiting>, st: Settings,
                                            env: Env, written: Content)
    requires WorldOk(w, st, written) && EnvOk(env) && FreshOffers(w.history, batch)
    requires RoundOk(w, awaiting, st, written) && OffersProper(w) && AskedOk(w)
    ensures AskedOk(DispatchAll(w, batch, st, env))
  {
    if batch != [] {
      var front := batch[..|batch| - 1];
      DispatchAllAsked(w, front, awaiting, st, env, written);
      DispatchAllOk(w, front, awaiting, st, env, written);
      DispatchAllProper(w, front, awaiting, st, env, written);
      DispatchAllHistory(w, front, st, env);
      DispatchAsked(DispatchAll(w, front, st, env), batch[|batch| - 1], st, env, written);
    }
  }

  lemma TurnAsked(w: World, st: Settings, env: Env, written: Content)
    requires WorldOk(w, st, written) && EnvOk(env) && AskedOk(w)
    requires forall n, ty :: Ripe(w, n, ty)
    ensures AskedOk(TakeTurn(w, st, env).world)
  {
    var ns := env.order(w.seats.Keys);
    assert Lists(ns, w.seats.Keys);
    SlotsList(ns);
    PrepareAllAsked(w, Slots(ns), st, env, written);
    var (w1, awaiting) := PrepareAll(w, Slots(ns), st, env);
    if awaiting == [] {
      PublishAllAsked(w1, Slots(env.order(w1.seats.Keys)));
    } else {
      var w2 := Emit(ClearFlags(w1), [Sync]);
      assert w2.out[|w1.out|..] == [Sync];
      QuietAsked(w1, w2);
    }
  }

  lemma ApplyAsked(c: Client, a: Action, st: Settings, written: Content)
    requires ClientOk(c, st, written) && Legal(c, a, written) && OffersProper(c.world) && AskedOk(c.world)
    ensures AskedOk(Apply(c, a, st).world)
  {
    if a.PipeReady? {
      DeliverAsked(c.world, a.seat, a.ty, a.pipe, a.delivery, st, written);
    } else {
      var awaiting := if c.phase.InRoundtrip? then c.phase.awaiting else [];
      assert RoundOk(c.world, awaiting, st, written);
      DispatchAllAsked(c.world, a.batch, awaiting, st, a.env, written);
      DispatchAllOk(c.world, a.batch, awaiting, st, a.env, written);
      var w1 := DispatchAll(c.world, a.batch, st, a.env);
      if !w1.managerRemoved {
        if a.Events? {
          forall n, ty ensures Ripe(w1, n, ty) {
            assert RoundSlotOk(w1, [], n, ty);
          }
          TurnAsked(w1, st, a.env, written);
        } else {
          ResolvedAsked(w1, awaiting, st, a.env, written);
        }
      }
    }
  }

  lemma ResolvedAsked(w1: World, awaiting: seq<Awaiting>, st: Settings, env: Env, written: Content)
    requires WorldOk(w1, st, written) && RoundOk(w1, awaiting, st, written) && EnvOk(env) && AskedOk(w1)
    ensures match ResolveAll(w1, awaiting) case Panicked => true
            case Continues(w2) =>
              if AnyFlag(w1) then AskedOk(TakeTurn(w2, st, env).world)
              else AskedOk(PublishAll(w2, Slots(env.order(w2.seats.Keys))))
  {
    ResolveAllOk(w1, awaiting, st, written);
    ResolveAllAsked(w1, awaiting);
    if ResolveAll(w1, awaiting).Continues? {
      var w2 := ResolveAll(w1, awaiting).world;
      if AnyFlag(w1) {
        forall n, ty ensures Ripe(w2, n, ty) {
          assert RoundSlotOk(w1, awaiting, n, ty);
        }
        TurnAsked(w2, st, env, written);
      } else {
        PublishAllAsked(w2, Slots(env.order(w2.seats.Keys)));
      }
    }
  }
}
