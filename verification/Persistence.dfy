/** A copy survives: the way of one new selection through the client, from the event that names its
    offer to the publication that takes it over. */
module Persistence {
  import opened Protocol
  import opened MimeAccounting
  import opened PipeReader
  import opened History
  import opened ClientSpec
  import opened ClientInvariant
  import opened Resolution
  import opened ClientRuns
  import opened ClientTheorems
  import opened Progress

  // ----- the event -----

  /** A batch whose last word on the selection is that it is offer `o` now. */
  ghost predicate LastNames(batch: seq<Event>, k: nat, n: SeatName, ty: SelectionType, o: OfferId) {
    k < |batch| && batch[k] == Selected(n, ty, Some(o)) && !TouchedIn(batch[k + 1..], n, ty)
  }

  /** What was advertised for an offer, when it is named at position `k` of a batch. */
  function AdvertisedBy(h: History, batch: seq<Event>, k: nat, o: OfferId): seq<Mime>
    requires k <= |batch|
  {
    Advertised(Extend(h, batch[..k]), o)
  }

  function NewlyNamed(o: OfferId, ms: seq<Mime>, names: nat): Selection {
    ReadMimes(o, ms, Elements(ms), names, map[])
  }

  lemma DispatchLast(w: World, batch: seq<Event>, st: Settings, env: Env)
    requires batch != []
    ensures DispatchAll(w, batch, st, env) ==
              Dispatch(DispatchAll(w, batch[..|batch| - 1], st, env), batch[|batch| - 1], st, env)
  {
  }

  lemma {:induction false} DispatchInParts(w: World, batch: seq<Event>, k: nat, st: Settings, env: Env)
    requires k <= |batch|
    ensures DispatchAll(w, batch, st, env) == DispatchAll(DispatchAll(w, batch[..k], st, env), batch[k..], st, env)
  {
    if k == |batch| {
      assert batch[..k] == batch;
    } else {
      var last := |batch| - 1;
      DispatchInParts(w, batch[..last], k, st, env);
      assert batch[..last][..k] == batch[..k];
      DispatchLast(w, batch, st, env);
      DispatchLast(DispatchAll(w, batch[..k], st, env), batch[k..], st, env);
      assert batch[k..][..last - k] == batch[..last][k..];
    }
  }

  lemma {:induction false} FreshInParts(h: History, batch: seq<Event>, k: nat)
    requires FreshOffers(h, batch) && k <= |batch|
    ensures FreshOffers(h, batch[..k])
  {
    if k < |batch| {
      assert batch[..|batch| - 1][..k] == batch[..k];
      FreshInParts(h, batch[..|batch| - 1], k);
    } else {
      assert batch[..k] == batch;
    }
  }

  lemma {:induction false} UntouchedFlag(w: World, batch: seq<Event>, n: SeatName, ty: SelectionType, st: Settings,
                                         env: Env)
    requires !TouchedIn(batch, n, ty)
    ensures Flag(DispatchAll(w, batch, st, env), n, ty) == Flag(w, n, ty)
  {
    if batch != [] {
      var front, e := batch[..|batch| - 1], batch[|batch| - 1];
      assert e in batch && forall x :: x in front ==> x in batch;
      UntouchedFlag(w, front, n, ty, st, env);
      SlotEffect(DispatchAll(w, front, st, env), e, n, ty, st, env);
    }
  }

  lemma WelcomeIsNamed(v: SeatView, o: OfferId, ms: seq<Mime>, st: Settings)
    requires o in v.offers && v.offers[o] == AdvertiseAll(ms, st) && Welcome(ms, st)
    ensures Named(v, Some(o), st) == NewlyNamed(o, ms, NameBytes(Elements(ms)))
  {
    AccountingIsExact(ms, st);
    IgnoredExactly(ms, st);
  }

  /** Naming a welcome offer makes the client look at it. */
  lemma NamingTakesUp(w: World, n: SeatName, ty: SelectionType, o: OfferId, st: Settings, env: Env, written: Content)
    requires WorldOk(w, st, written) && st.Enabled(ty) && o in Unresolved(w.history, n) &&
             Welcome(Advertised(w.history, o), st)
    ensures var w', ms := Dispatch(w, Selected(n, ty, Some(o)), st, env), Advertised(w.history, o);
            At(w', n, ty) == Some(NewlyNamed(o, ms, NameBytes(Elements(ms)))) && Flag(w', n, ty)
  {
    assert n in w.seats && At(w, n, ty).Some? && OffersOk(w.history, n, w.seats[n].offers, st) by {
      UnresolvedFacts(w.history, n);
      assert SeatOk(w, n, st);
    }
    WelcomeIsNamed(w.seats[n], o, Advertised(w.history, o), st);
    SlotSelected(w, Selected(n, ty, Some(o)), n, ty, st, env);
  }

  /** An offer that has just been taken up stays so while no event concerns the selection. */
  lemma StaysTakenUp(w: World, batch: seq<Event>, n: SeatName, ty: SelectionType, o: OfferId, ms: seq<Mime>, names: nat,
                     st: Settings, env: Env)
    requires At(w, n, ty) == Some(NewlyNamed(o, ms, names)) && Flag(w, n, ty) && !TouchedIn(batch, n, ty)
    ensures var w' := DispatchAll(w, batch, st, env);
            At(w', n, ty) == Some(NewlyNamed(o, ms, names)) && Flag(w', n, ty)
  {
    HeldThroughDispatch(w, batch, n, ty, st, env);
    UntouchedFlag(w, batch, n, ty, st, env);
    FdsStay(w, batch, n, ty, st, env);
  }

  /** The same at the end of a batch of events, whether or not pipes of other offers, or of an older offer
      of the same selection, wait for a roundtrip meanwhile. */
  lemma BatchTakesUp(w: World, awaiting: seq<Awaiting>, batch: seq<Event>, k: nat, n: SeatName, ty: SelectionType,
                     o: OfferId, st: Settings, env: Env, written: Content)
    requires WorldOk(w, st, written) && FreshOffers(w.history, batch) && RoundOk(w, awaiting, st, written)
    requires LastNames(batch, k, n, ty, o) && st.Enabled(ty) && o in Unresolved(Extend(w.history, batch[..k]), n)
    requires Welcome(AdvertisedBy(w.history, batch, k, o), st)
    ensures var w', ms := DispatchAll(w, batch, st, env), AdvertisedBy(w.history, batch, k, o);
            At(w', n, ty) == Some(NewlyNamed(o, ms, NameBytes(Elements(ms)))) && Flag(w', n, ty)
  {
    var w1, ms := DispatchAll(w, batch[..k], st, env), AdvertisedBy(w.history, batch, k, o);
    var w2 := DispatchAll(w, batch[..k + 1], st, env);
    assert w2 == Dispatch(w1, batch[k], st, env) by {
      assert batch[..k + 1][..k] == batch[..k];
    }
    assert At(w2, n, ty) == Some(NewlyNamed(o, ms, NameBytes(Elements(ms)))) && Flag(w2, n, ty) by {
      FreshInParts(w.history, batch, k);
      FrontTakesUp(w, awaiting, batch[..k], n, ty, o, st, env, written);
    }
    DispatchInParts(w, batch, k + 1, st, env);
    StaysTakenUp(w2, batch[k + 1..], n, ty, o, ms, NameBytes(Elements(ms)), st, env);
  }

  lemma FrontTakesUp(w: World, awaiting: seq<Awaiting>, front: seq<Event>, n: SeatName, ty: SelectionType, o: OfferId,
                     st: Settings, env: Env, written: Content)
    requires WorldOk(w, st, written) && FreshOffers(w.history, front) && RoundOk(w, awaiting, st, written)
    requires st.Enabled(ty) && o in Unresolved(Extend(w.history, front), n) &&
             Welcome(Advertised(Extend(w.history, front), o), st)
    ensures var w', ms := Dispatch(DispatchAll(w, front, st, env), Selected(n, ty, Some(o)), st, env),
              Advertised(Extend(w.history, front), o);
            At(w', n, ty) == Some(NewlyNamed(o, ms, NameBytes(Elements(ms)))) && Flag(w', n, ty)
  {
    DispatchAllOk(w, front, awaiting, st, env, written);
    DispatchAllHistory(w, front, st, env);
    NamingTakesUp(DispatchAll(w, front, st, env), n, ty, o, st, env, written);
  }

  // ----- the request -----

  function Made(n: SeatName, ty: SelectionType, ms: seq<Mime>, st: Settings, env: Env): Created {
    CreatePipes(env.typeOrder(Elements(ms)), OpenFor(env, n, ty), st)
  }

  /** The loop asks for the data of a selection it has not looked at yet, unless no pipe could be made. */
  lemma {:induction false} PrepareAllAsks(w: World, slots: seq<Slot>, n: SeatName, ty: SelectionType, o: OfferId,
                                          ms: seq<Mime>, names: nat, st: Settings, env: Env)
    requires NoDuplicates(slots) && At(w, n, ty) == Some(NewlyNamed(o, ms, names))
    ensures var (w', awaiting) := PrepareAll(w, slots, st, env);
            var made := Made(n, ty, ms, st, env);
            if Slot(n, ty) !in slots then At(w', n, ty) == At(w, n, ty)
            else if made.error || made.pipes == [] then At(w', n, ty) == Some(Waiting)
            else && At(w', n, ty) == Some(ReadMimes(o, ms, {}, names, Unmarked(made.pipes)))
                 && Awaiting(n, ty, made.pipes) in awaiting
  {
    if slots != [] {
      var front, last := slots[..|slots| - 1], slots[|slots| - 1];
      assert slots == front + [last];
      PrepareAllAsks(w, front, n, ty, o, ms, names, st, env);
      var w1 := PrepareAll(w, front, st, env).0;
      if last == Slot(n, ty) {
        assert forall i :: 0 <= i < |front| ==> front[i] == slots[i];
        PrepareAsks(w1, n, ty, o, ms, names, st, env);
      } else {
        PrepareFrame(w1, last.seat, last.ty, st, env, n, ty);
      }
    }
  }

  lemma PrepareAsks(w: World, n: SeatName, ty: SelectionType, o: OfferId, ms: seq<Mime>, names: nat, st: Settings,
                    env: Env)
    requires At(w, n, ty) == Some(NewlyNamed(o, ms, names))
    ensures var (w', awaiting) := Prepare(w, n, ty, st, env);
            var made := Made(n, ty, ms, st, env);
            if made.error || made.pipes == [] then At(w', n, ty) == Some(Waiting)
            else && At(w', n, ty) == Some(ReadMimes(o, ms, {}, names, Unmarked(made.pipes)))
                 && awaiting == [Awaiting(n, ty, made.pipes)]
  {
    var made := Made(n, ty, ms, st, env);
    assert map[] + Unmarked(made.pipes) == Unmarked(made.pipes);
  }

  lemma TurnAsks(w: World, n: SeatName, ty: SelectionType, o: OfferId, ms: seq<Mime>, names: nat, st: Settings,
                 env: Env)
    requires EnvOk(env) && At(w, n, ty) == Some(NewlyNamed(o, ms, names))
    requires var made := Made(n, ty, ms, st, env); !made.error && made.pipes != []
    ensures var c, made := TakeTurn(w, st, env), Made(n, ty, ms, st, env);
            && c.phase.InRoundtrip? && Awaiting(n, ty, made.pipes) in c.phase.awaiting
            && At(c.world, n, ty) == Some(ReadMimes(o, ms, {}, names, Unmarked(made.pipes)))
            && Posts(c.world, n, ty) == Posts(w, n, ty)
  {
    var ns := env.order(w.seats.Keys);
    assert Lists(ns, w.seats.Keys);
    SlotsList(ns);
    assert n in Elements(ns);
    PrepareAllAsks(w, Slots(ns), n, ty, o, ms, names, st, env);
    PrepareAllPosts(w, Slots(ns), st, env);
    var (w1, awaiting) := PrepareAll(w, Slots(ns), st, env);
    assert At(ClearFlags(w1), n, ty) == At(w1, n, ty);
  }

  lemma {:induction false} PrepareAllPosts(w: World, slots: seq<Slot>, st: Settings, env: Env)
    ensures PrepareAll(w, slots, st, env).0.published == w.published
  {
    if slots != [] {
      PrepareAllPosts(w, slots[..|slots| - 1], st, env);
    }
  }

  // ----- the answer -----

  /** A request of another client for our own data comes in through pipe `fd`. */
  predicate EchoedIn(w: World, batch: seq<Event>, n: SeatName, ty: SelectionType, fd: Fd) {
    exists e :: e in batch && IsEcho(w, e, n, ty, fd)
  }

  predicate IsEcho(w: World, e: Event, n: SeatName, ty: SelectionType, fd: Fd) {
    e.Send? && e.fd == fd && !e.fault.MetadataFault?
    && e.source in w.callbacks && w.callbacks[e.source].seat == n && w.callbacks[e.source].ty == ty
  }

  lemma EchoMarks(w: World, e: Event, n: SeatName, ty: SelectionType, fd: Fd, st: Settings, env: Env)
    requires IsReading(w, n, ty) && !Touches(e, n, ty) && fd in At(w, n, ty).value.fds
    ensures var w' := Dispatch(w, e, st, env);
            && w'.callbacks == w.callbacks && IsReading(w', n, ty) && fd in At(w', n, ty).value.fds
            && (At(w', n, ty).value.fds[fd] <==> At(w, n, ty).value.fds[fd] || IsEcho(w, e, n, ty, fd))
  {
    MarksGrow(w, e, n, ty, st, env);
  }

  lemma EchoedOneMore(w: World, front: seq<Event>, e: Event, n: SeatName, ty: SelectionType, fd: Fd)
    ensures EchoedIn(w, front + [e], n, ty, fd) <==> EchoedIn(w, front, n, ty, fd) || IsEcho(w, e, n, ty, fd)
  {
    assert forall x :: x in front + [e] <==> x in front || x == e;
  }

  /** A pipe of an offer is marked exactly by the requests that come back through it to a source of
      the same selection. */
  lemma {:induction false} MarkedExactly(w: World, batch: seq<Event>, n: SeatName, ty: SelectionType, fd: Fd,
                                         st: Settings, env: Env)
    requires IsReading(w, n, ty) && !TouchedIn(batch, n, ty) && fd in At(w, n, ty).value.fds
    ensures var w' := DispatchAll(w, batch, st, env);
            && w'.callbacks == w.callbacks && IsReading(w', n, ty) && fd in At(w', n, ty).value.fds
            && (At(w', n, ty).value.fds[fd] <==> At(w, n, ty).value.fds[fd] || EchoedIn(w, batch, n, ty, fd))
  {
    if batch != [] {
      var front, e := batch[..|batch| - 1], batch[|batch| - 1];
      assert batch == front + [e];
      MarkedExactly(w, front, n, ty, fd, st, env);
      EchoMarks(DispatchAll(w, front, st, env), e, n, ty, fd, st, env);
      EchoedOneMore(w, front, e, n, ty, fd);
    }
  }

  /** None of the pipes of the selection comes back to us. */
  predicate NoEcho(w: World, batch: seq<Event>, n: SeatName, ty: SelectionType) {
    At(w, n, ty).Some? && At(w, n, ty).value.ReadMimes? &&
    forall fd :: fd in At(w, n, ty).value.fds ==> !EchoedIn(w, batch, n, ty, fd)
  }

  /** A selection whose pipes have waited for the roundtrip. */
  function AfterAnswer(s: Selection, pipes: seq<PipeRecord>): Selection
    requires s.ReadMimes?
  {
    if AnyMarked(s.fds) then Waiting else GotPipes(s.ordered, Reader(pipes, s.bytesRead, 0, 0))
  }

  lemma ResolveReads(w: World, a: Awaiting, n: SeatName, ty: SelectionType)
    requires Resolve(w, a).Continues?
    ensures var w' := Resolve(w, a).world;
            && w'.published == w.published && Flag(w', n, ty) == Flag(w, n, ty)
            && (a.seat != n || a.ty != ty ==> At(w', n, ty) == At(w, n, ty))
            && (a.seat == n && a.ty == ty && IsReading(w, n, ty) && !Flag(w, n, ty) ==>
                  At(w', n, ty) == Some(AfterAnswer(At(w, n, ty).value, a.pipes)))
  {
  }

  lemma {:induction false} ResolveAllReads(w: World, awaiting: seq<Awaiting>, n: SeatName, ty: SelectionType,
                                           pipes: seq<PipeRecord>)
    requires IsReading(w, n, ty) && !Flag(w, n, ty) && DistinctSlots(awaiting) && ResolveAll(w, awaiting).Continues?
    ensures var w' := ResolveAll(w, awaiting).world;
            && w'.published == w.published && Flag(w', n, ty) == Flag(w, n, ty)
            && (!Covered(awaiting, n, ty) ==> At(w', n, ty) == At(w, n, ty))
            && (Awaiting(n, ty, pipes) in awaiting ==> At(w', n, ty) == Some(AfterAnswer(At(w, n, ty).value, pipes)))
  {
    if awaiting != [] {
      var front, last := awaiting[..|awaiting| - 1], awaiting[|awaiting| - 1];
      assert awaiting == front + [last];
      ResolveAllReads(w, front, n, ty, pipes);
      ResolveReads(ResolveAll(w, front).world, last, n, ty);
      if last.seat == n && last.ty == ty {
        assert forall i :: 0 <= i < |front| ==> front[i] == awaiting[i];
        assert !Covered(front, n, ty);
        assert Awaiting(n, ty, pipes) !in front;
      }
    }
  }

  // ----- the whole way -----

  /** The first wake-up of the story: events arrive whose last word on the selection is a welcome offer. The
      client may have been idle or waiting for a roundtrip; it is not told that the manager is gone, and
      does not panic over a seat announced anew. */
  ghost predicate Copied(c: Client, a: Action, k: nat, n: SeatName, ty: SelectionType, o: OfferId, st: Settings) {
    && !a.PipeReady? && LastNames(a.batch, k, n, ty, o) && st.Enabled(ty)
    && o in Unresolved(Extend(c.world.history, a.batch[..k]), n)
    && Welcome(AdvertisedBy(c.world.history, a.batch, k, o), st)
    && var c' := Apply(c, a, st); !c'.phase.Stopped? && !c'.phase.Crashed?
  }

  /** The pipes that wait for a roundtrip. */
  function Waits(c: Client): seq<Awaiting> {
    if c.phase.InRoundtrip? then c.phase.awaiting else []
  }

  /** Where the loop takes its next turn from: the world after the batch, with what waited resolved. */
  lemma TurnAfterNaming(c: Client, a: Action, n: SeatName, ty: SelectionType, st: Settings, written: Content,
                        w1: World) returns (w2: World)
    requires ClientOk(c, st, written) && Legal(c, a, written) && !a.PipeReady?
    requires w1 == DispatchAll(c.world, a.batch, st, a.env) && Flag(w1, n, ty) && n in w1.seats
    requires var c' := Apply(c, a, st); !c'.phase.Stopped? && !c'.phase.Crashed?
    ensures Apply(c, a, st) == TakeTurn(w2, st, a.env)
    ensures At(w2, n, ty) == At(w1, n, ty) && w2.published == w1.published
  {
    if a.Events? {
      w2 := w1;
    } else {
      var awaiting := c.phase.awaiting;
      DispatchAllOk(c.world, a.batch, awaiting, st, a.env, written);
      ResolveAllOk(w1, awaiting, st, written);
      w2 := ResolveAll(w1, awaiting).world;
      assert AnyFlag(w1);
    }
  }

  /** The client asks for the data of a new selection at once, and waits for a roundtrip. */
  lemma NewSelectionIsAskedFor(c: Client, a: Action, k: nat, n: SeatName, ty: SelectionType, o: OfferId,
                               st: Settings, written: Content)
    requires ClientOk(c, st, written) && Legal(c, a, written) && Copied(c, a, k, n, ty, o, st)
    requires var made := Made(n, ty, AdvertisedBy(c.world.history, a.batch, k, o), st, a.env);
             !made.error && made.pipes != []
    ensures var c', ms := Apply(c, a, st), AdvertisedBy(c.world.history, a.batch, k, o);
            var made := Made(n, ty, ms, st, a.env);
            && c'.phase.InRoundtrip? && Awaiting(n, ty, made.pipes) in c'.phase.awaiting
            && At(c'.world, n, ty) == Some(ReadMimes(o, ms, {}, NameBytes(Elements(ms)), Unmarked(made.pipes)))
            && Posts(c'.world, n, ty) == Posts(c.world, n, ty)
  {
    assert RoundOk(c.world, Waits(c), st, written);
    BatchTakesUp(c.world, Waits(c), a.batch, k, n, ty, o, st, a.env, written);
    DispatchAllHistory(c.world, a.batch, st, a.env);
    var w1, ms := DispatchAll(c.world, a.batch, st, a.env), AdvertisedBy(c.world.history, a.batch, k, o);
    var w2 := TurnAfterNaming(c, a, n, ty, st, written, w1);
    TurnAsks(w2, n, ty, o, ms, NameBytes(Elements(ms)), st, a.env);
  }

  lemma {:induction false} NothingMarked(w: World, batch: seq<Event>, n: SeatName, ty: SelectionType, st: Settings,
                                         env: Env)
    requires IsReading(w, n, ty) && !TouchedIn(batch, n, ty)
    requires forall fd :: fd in At(w, n, ty).value.fds ==> !At(w, n, ty).value.fds[fd]
    ensures var w' := DispatchAll(w, batch, st, env);
            IsReading(w', n, ty) && (AnyMarked(At(w', n, ty).value.fds) <==> !NoEcho(w, batch, n, ty))
  {
    var w' := DispatchAll(w, batch, st, env);
    FdsStay(w, batch, n, ty, st, env);
    forall fd | fd in At(w, n, ty).value.fds
      ensures At(w', n, ty).value.fds[fd] <==> EchoedIn(w, batch, n, ty, fd)
    {
      MarkedExactly(w, batch, n, ty, fd, st, env);
    }
  }

  /** After the roundtrip the pipes are read if none of them came back to us, and dropped otherwise. */
  lemma RoundtripLeadsToReading(c: Client, a: Action, n: SeatName, ty: SelectionType, pipes: seq<PipeRecord>,
                                st: Settings, written: Content)
    requires ClientOk(c, st, written) && Legal(c, a, written) && a.RoundtripDone? &&
             Awaiting(n, ty, pipes) in c.phase.awaiting
    requires !TouchedIn(a.batch, n, ty) && IsReading(c.world, n, ty)
    requires forall fd :: fd in At(c.world, n, ty).value.fds ==> !At(c.world, n, ty).value.fds[fd]
    requires var c' := Apply(c, a, st); !c'.phase.Stopped? && !c'.phase.Crashed?
    ensures var s, c' := At(c.world, n, ty).value, Apply(c, a, st);
            && At(c'.world, n, ty) == Some(if NoEcho(c.world, a.batch, n, ty)
                                           then GotPipes(s.ordered, Reader(pipes, s.bytesRead, 0, 0))
                                           else Waiting)
            && Posts(c'.world, n, ty) == Posts(c.world, n, ty)
  {
    var w1 := DispatchAll(c.world, a.batch, st, a.env);
    DispatchAllHistory(c.world, a.batch, st, a.env);
    HeldThroughDispatch(c.world, a.batch, n, ty, st, a.env);
    UntouchedFlag(c.world, a.batch, n, ty, st, a.env);
    NothingMarked(c.world, a.batch, n, ty, st, a.env);
    DispatchAllOk(c.world, a.batch, c.phase.awaiting, st, a.env, written);
    assert !Flag(c.world, n, ty);
    ResolveAllReads(w1, c.phase.awaiting, n, ty, pipes);
    var w2 := ResolveAll(w1, c.phase.awaiting).world;
    if AnyFlag(w1) {
      TurnPosts(w2, st, a.env, n, ty);
    } else {
      PublishAllPosts(w2, Slots(a.env.order(w2.seats.Keys)), n, ty);
    }
  }

  /** The pipes can be made, and there is something to ask for. */
  ghost predicate CanBeMade(ms: seq<Mime>, n: SeatName, ty: SelectionType, st: Settings, env: Env) {
    && (forall m :: m in ms ==> env.open(n, ty, m).Opened?)
    && (exists m :: m in ms && (st.requestIgnored || m != "SAVE_TARGETS"))
  }

  /** Pipes that nothing was read from yet, one for each type that is asked for. */
  ghost predicate FreshPipes(pipes: seq<PipeRecord>, ms: seq<Mime>, st: Settings) {
    && Untouched(pipes) && DistinctTypes(pipes)
    && (set p | p in pipes :: p.mime) == set m | m in ms && (st.requestIgnored || m != "SAVE_TARGETS")
  }

  lemma AllPipesMade(ms: seq<Mime>, n: SeatName, ty: SelectionType, st: Settings, env: Env)
    requires EnvOk(env) && CanBeMade(ms, n, ty, st, env)
    ensures var made := Made(n, ty, ms, st, env);
            !made.error && made.pipes != [] && FreshPipes(made.pipes, ms, st)
  {
    var todo := env.typeOrder(Elements(ms));
    assert Lists(todo, Elements(ms));
    var made := Made(n, ty, ms, st, env);
    CreatePipesOk(todo, OpenFor(env, n, ty), st);
    CreatePipesOutcomes(todo, OpenFor(env, n, ty), st);
    assert forall m :: m in todo <==> m in Elements(ms);
    assert forall m :: m in made.faulty ==> m in todo;
    assert made.faulty == {} && !made.error;
    forall m | m in ms && !st.Skips(m) ensures exists p :: p in made.pipes && p.mime == m {
      assert m in Elements(ms);
      assert m in Wanted(todo, made.faulty, st);
      var i :| 0 <= i < |made.pipes| && made.pipes[i].mime == m;
      assert made.pipes[i] in made.pipes;
    }
  }

  /** What was written to freshly made pipes, type by type. */
  lemma WholeContentsOf(pipes: seq<PipeRecord>, o: OfferId, written: Content)
    requires DistinctTypes(pipes)
    ensures var data := WholeContents(pipes, Contents(pipes, o, written));
            data.Keys == (set p | p in pipes :: p.mime) && forall m :: m in data ==> data[m] == written(o, m)
  {
    var content := Contents(pipes, o, written);
    WholeContentsAt(pipes, content, 0);
    forall m | m in WholeContents(pipes, content) ensures WholeContents(pipes, content)[m] == written(o, m) {
      var p :| p in pipes && p.mime == m;
      var i :| 0 <= i < |pipes| && pipes[i] == p;
      WholeContentsAt(pipes, content, i);
    }
  }

  /** The exact publication of a copied offer. */
  ghost predicate PublishesCopy(before: seq<Publication>, after: seq<Publication>, o: OfferId, ms: seq<Mime>,
                                st: Settings, written: Content) {
    && |after| == |before| + 1 && before <= after
    && var p := after[|before|];
       && p.data.Keys == (set m | m in ms && (st.requestIgnored || m != "SAVE_TARGETS"))
       && p.offered == Keep(ms, p.data.Keys)
       && forall m :: m in p.data ==> p.data[m] == written(o, m)
  }

  /** A reader that is about to begin. */
  ghost function NewReader(pipes: seq<PipeRecord>, ms: seq<Mime>): Reader {
    Reader(pipes, NameBytes(Elements(ms)), 0, 0)
  }

  /** The answer to the roundtrip: nothing touches the selection, and its pipes belong to others. */
  ghost predicate AnsweredByOthers(c: Client, a: Action, n: SeatName, ty: SelectionType, st: Settings,
                                   written: Content) {
    && Legal(c, a, written) && a.RoundtripDone? && !TouchedIn(a.batch, n, ty) && NoEcho(c.world, a.batch, n, ty)
    && var c' := Apply(c, a, st); !c'.phase.Stopped? && !c'.phase.Crashed?
  }

  /** Reading goes on undisturbed until it has come to an end, and all offers of the seat are resolved. */
  ghost predicate ReadToTheEnd(c: Client, rest: seq<Action>, c': Client, n: SeatName, ty: SelectionType, r: Reader,
                               st: Settings, written: Content) {
    && LegalFrom(c, rest, st, written) && LeavesAlone(rest, n, ty) && NoReadErrors(rest, n, ty)
    && !Read(r, TurnsOf(rest, n, ty), st).verdict.Pending?
    && c'.phase.Idle? && n in c'.world.seats && c'.world.seats[n].offers == map[]
  }

  /** The first two steps of the story. */
  lemma CopyIsRead(c: Client, copied: Action, k: nat, answered: Action, n: SeatName, ty: SelectionType, o: OfferId,
                   ms: seq<Mime>, st: Settings, written: Content)
    requires ClientOk(c, st, written) && Legal(c, copied, written) && Copied(c, copied, k, n, ty, o, st)
    requires ms == AdvertisedBy(c.world.history, copied.batch, k, o) && CanBeMade(ms, n, ty, st, copied.env)
    requires AnsweredByOthers(Apply(c, copied, st), answered, n, ty, st, written)
    ensures var c2 := Apply(Apply(c, copied, st), answered, st);
            && ClientOk(c2, st, written) && Origin(c2.world.history, n, ty) == Some(o)
            && At(c2.world, n, ty) == Some(GotPipes(ms, NewReader(Made(n, ty, ms, st, copied.env).pipes, ms)))
            && Posts(c2.world, n, ty) == Posts(c.world, n, ty)
    ensures FreshPipes(Made(n, ty, ms, st, copied.env).pipes, ms, st)
  {
    var c1, pipes := Apply(c, copied, st), Made(n, ty, ms, st, copied.env).pipes;
    AllPipesMade(ms, n, ty, st, copied.env);
    NewSelectionIsAskedFor(c, copied, k, n, ty, o, st, written);
    ApplyOk(c, copied, st, written);
    UnmarkedKeys(pipes);
    RoundtripLeadsToReading(c1, answered, n, ty, pipes, st, written);
    SameOffer(c1, answered, n, ty, o, st, written);
    ApplyOk(c1, answered, st, written);
  }

  lemma SameOffer(c: Client, a: Action, n: SeatName, ty: SelectionType, o: OfferId, st: Settings, written: Content)
    requires ClientOk(c, st, written) && Legal(c, a, written) && a.RoundtripDone? && !TouchedIn(a.batch, n, ty)
    requires IsReading(c.world, n, ty) && At(c.world, n, ty).value.offer == o
    ensures Origin(Apply(c, a, st).world.history, n, ty) == Some(o)
  {
    assert SelectionOk(c.world.history, c.world.out, c.world.faults, n, ty, At(c.world, n, ty).value, st, written);
    ApplyHistory(c, a, st);
    UntouchedEvents(c.world.history, a.batch, n, ty);
  }

  lemma EndIsPosted(c: Client, rest: seq<Action>, c': Client, st: Settings, written: Content, n: SeatName,
                    ty: SelectionType)
    requires ClientOk(c, st, written) && LegalFrom(c, rest, st, written) && c' == Follow(c, rest, st) && c'.phase.Idle?
    ensures Posted(c'.world, n, ty)
  {
    FollowOk(c, rest, st, written);
  }

  lemma ReadAndPublished(c: Client, rest: seq<Action>, c': Client, n: SeatName, ty: SelectionType, o: OfferId,
                         ms: seq<Mime>, pipes: seq<PipeRecord>, st: Settings, written: Content)
    requires ClientOk(c, st, written) && c' == Follow(c, rest, st) &&
             ReadToTheEnd(c, rest, c', n, ty, NewReader(pipes, ms), st, written)
    requires Untouched(pipes) && Origin(c.world.history, n, ty) == Some(o)
    requires At(c.world, n, ty) == Some(GotPipes(ms, NewReader(pipes, ms)))
    requires !TooMuch(pipes, ms, o, st, written)
    ensures OneMore(Posts(c.world, n, ty), Posts(c'.world, n, ty), ms,
                    WholeContents(pipes, Contents(pipes, o, written)))
    ensures At(c'.world, n, ty) == Some(Waiting)
  {
    assert NoneFailed(pipes) && At(c.world, n, ty).value.reader == NewReader(pipes, ms);
    EndIsPosted(c, rest, c', st, written, n, ty);
    WhatIsWrittenIsPublished(c, rest, st, written, n, ty, o);
  }

  lemma OneMoreIsTheCopy(before: seq<Publication>, after: seq<Publication>, o: OfferId, ms: seq<Mime>,
                         pipes: seq<PipeRecord>, st: Settings, written: Content)
    requires FreshPipes(pipes, ms, st)
    requires OneMore(before, after, ms, WholeContents(pipes, Contents(pipes, o, written)))
    ensures PublishesCopy(before, after, o, ms, st, written)
  {
    WholeContentsOf(pipes, o, written);
  }

  /** The last step of the story. */
  lemma ReadCopyIsPublished(c: Client, rest: seq<Action>, c': Client, n: SeatName, ty: SelectionType, o: OfferId,
                            ms: seq<Mime>, pipes: seq<PipeRecord>, st: Settings, written: Content)
    requires ClientOk(c, st, written) && c' == Follow(c, rest, st) &&
             ReadToTheEnd(c, rest, c', n, ty, NewReader(pipes, ms), st, written)
    requires FreshPipes(pipes, ms, st)
    requires Origin(c.world.history, n, ty) == Some(o) && At(c.world, n, ty) == Some(GotPipes(ms, NewReader(pipes, ms)))
    requires !TooMuch(pipes, ms, o, st, written)
    ensures PublishesCopy(Posts(c.world, n, ty), Posts(c'.world, n, ty), o, ms, st, written)
    ensures At(c'.world, n, ty) == Some(Waiting)
  {
    ReadAndPublished(c, rest, c', n, ty, o, ms, pipes, st, written);
    OneMoreIsTheCopy(Posts(c.world, n, ty), Posts(c'.world, n, ty), o, ms, pipes, st, written);
  }

  /** A copy survives. Another client's offer becomes the selection, while the client is idle or in the
      middle of a roundtrip for other pipes; its pipes can be made, none of them comes back to us, and
      nothing touches the selection until all of them have been read without error. Then, as soon as the
      program waits for events with no unresolved offer left on the seat, the selection has been published
      exactly once and waits for the next one: all types that were advertised, in their order, each with
      exactly the bytes that were written for it. What the other selections and seats do in the meantime,
      and how often reading is interrupted, makes no difference. */
  lemma ACopySurvives(c: Client, copied: Action, k: nat, answered: Action, rest: seq<Action>, n: SeatName,
                      ty: SelectionType, o: OfferId, ms: seq<Mime>, pipes: seq<PipeRecord>,
                      c1: Client, c2: Client, c3: Client, st: Settings, written: Content)
    requires ClientOk(c, st, written) && Legal(c, copied, written) && Copied(c, copied, k, n, ty, o, st)
    requires ms == AdvertisedBy(c.world.history, copied.batch, k, o) && CanBeMade(ms, n, ty, st, copied.env)
    requires c1 == Apply(c, copied, st) && AnsweredByOthers(c1, answered, n, ty, st, written)
    requires pipes == Made(n, ty, ms, st, copied.env).pipes && c2 == Apply(c1, answered, st)
    requires c3 == Follow(c2, rest, st)
    requires ReadToTheEnd(c2, rest, c3, n, ty, NewReader(pipes, ms), st, written)
    requires !TooMuch(pipes, ms, o, st, written)
    ensures PublishesCopy(Posts(c.world, n, ty), Posts(c3.world, n, ty), o, ms, st, written)
    ensures At(c3.world, n, ty) == Some(Waiting)
  {
    CopyIsRead(c, copied, k, answered, n, ty, o, ms, st, written);
    ReadCopyIsPublished(c2, rest, c3, n, ty, o, ms, pipes, st, written);
  }
}
