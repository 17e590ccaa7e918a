/** What the client sends, over whole runs: the requests about one offer, and the requests about one
    data source. */
module Wire {
  import opened Protocol
  import opened PipeReader
  import opened History
  import opened ClientSpec
  import opened ClientInvariant
  import opened Resolution
  import opened ClientRuns

  // ----- the requests about one object -----

  function Filter(rs: seq<Request>, f: Request -> bool): seq<Request> {
    if rs == [] then []
    else
      var front, r := Filter(rs[..|rs| - 1], f), rs[|rs| - 1];
      if f(r) then front + [r] else front
  }

  lemma {:induction false} FilterAppend(a: seq<Request>, b: seq<Request>, f: Request -> bool)
    ensures Filter(a + b, f) == Filter(a, f) + Filter(b, f)
  {
    if b == [] {
      assert a + b == a;
    } else {
      var front := b[..|b| - 1];
      assert (a + b)[..|a + b| - 1] == a + front;
      FilterAppend(a, front, f);
    }
  }

  lemma {:induction false} FilterNone(rs: seq<Request>, f: Request -> bool)
    requires forall r :: r in rs ==> !f(r)
    ensures Filter(rs, f) == []
  {
    if rs != [] {
      var front := rs[..|rs| - 1];
      assert forall r :: r in front ==> r in rs;
      FilterNone(front, f);
    }
  }

  lemma {:induction false} FilterAll(rs: seq<Request>, f: Request -> bool)
    requires forall r :: r in rs ==> f(r)
    ensures Filter(rs, f) == rs
  {
    if rs != [] {
      var front := rs[..|rs| - 1];
      assert forall r :: r in front ==> r in rs;
      FilterAll(front, f);
    }
  }

  /** Of a list of different requests, just one is meant. */
  lemma {:induction false} FilterOne(rs: seq<Request>, f: Request -> bool, i: nat)
    requires i < |rs| && f(rs[i])
    requires forall j :: 0 <= j < |rs| && j != i ==> !f(rs[j])
    ensures Filter(rs, f) == [rs[i]]
  {
    var front := rs[..|rs| - 1];
    if i == |rs| - 1 {
      FilterNone(front, f);
    } else {
      FilterOne(front, f, i);
    }
  }

  function OnOffer(o: OfferId): Request -> bool {
    (r: Request) => (r.Receive? || r.DestroyOffer?) && r.offer == o
  }

  function OnSource(s: SourceId): Request -> bool {
    (r: Request) => (r.CreateSource? || r.OfferType? || r.SetSelection? || r.DestroySource?) && r.source == s
  }

  // ----- offers -----

  predicate PendingAt(w: World, n: SeatName, o: OfferId) {
    n in w.seats && o in w.seats[n].offers
  }

  predicate ReadAt(w: World, n: SeatName, ty: SelectionType, o: OfferId) {
    IsReading(w, n, ty) && At(w, n, ty).value.offer == o
  }

  /** Some part of the client holds the offer. */
  ghost predicate Live(w: World, o: OfferId) {
    (exists n :: PendingAt(w, n, o)) || (exists n, ty :: ReadAt(w, n, ty, o))
  }

  /** Any number of receive requests, and at the very end one destroy request if the offer is dead. */
  predicate OfferTrace(t: seq<Request>, o: OfferId, live: bool) {
    if live then forall i :: 0 <= i < |t| ==> t[i].Receive?
    else && t != [] && t[|t| - 1] == DestroyOffer(o)
         && forall i :: 0 <= i < |t| - 1 ==> t[i].Receive?
  }

  /** Every offer that was introduced on a seat is used properly, and no other offer is used at all. */
  ghost predicate OffersProper(w: World) {
    forall o :: if o in Introduced(w.history) then OfferTrace(Filter(w.out, OnOffer(o)), o, Live(w, o))
                else Filter(w.out, OnOffer(o)) == [] && !Live(w, o)
  }

  /** Each offer is held in one place only. */
  lemma OnePlaceOnly(w: World, o: OfferId, st: Settings, written: Content)
    requires WorldOk(w, st, written)
    ensures forall n, m :: PendingAt(w, n, o) && PendingAt(w, m, o) ==> n == m
    ensures forall n, m, ty :: !(PendingAt(w, n, o) && ReadAt(w, m, ty, o))
    ensures forall n, m, ty, tz :: ReadAt(w, n, ty, o) && ReadAt(w, m, tz, o) ==> n == m && ty == tz
    ensures Live(w, o) ==> o in Introduced(w.history)
  {
    forall n | PendingAt(w, n, o)
      ensures o in Introduced(w.history) && o in Unresolved(w.history, n)
      ensures forall m :: PendingAt(w, m, o) ==> m == n
    {
      assert SeatOk(w, n, st);
      UnresolvedFacts(w.history, n);
      forall m | PendingAt(w, m, o) ensures m == n {
        assert SeatOk(w, m, st);
      }
    }
    forall m, ty | ReadAt(w, m, ty, o)
      ensures Resolved(w.history, o) && Origin(w.history, m, ty) == Some(o)
    {
      assert SelectionOk(w.history, w.out, w.faults, m, ty, At(w, m, ty).value, st, written);
    }
  }

  /** What one step of the client does about offer `o`: `d` is what it sends. */
  ghost predicate OfferStep(w: World, w': World, o: OfferId) {
    && w.out <= w'.out
    && var d := Filter(w'.out[|w.out|..], OnOffer(o));
       if Live(w, o) then OfferTrace(d, o, Live(w', o)) else d == [] && (Live(w', o) ==> o !in Introduced(w.history))
  }

  lemma OfferStepProper(w: World, w': World, o: OfferId)
    requires OfferStep(w, w', o)
    requires Introduced(w.history) <= Introduced(w'.history)
    requires o in Introduced(w'.history) && o !in Introduced(w.history) ==> Live(w', o)
    requires if o in Introduced(w.history) then OfferTrace(Filter(w.out, OnOffer(o)), o, Live(w, o))
             else Filter(w.out, OnOffer(o)) == [] && !Live(w, o)
    requires Live(w', o) ==> o in Introduced(w'.history)
    ensures if o in Introduced(w'.history) then OfferTrace(Filter(w'.out, OnOffer(o)), o, Live(w', o))
            else Filter(w'.out, OnOffer(o)) == [] && !Live(w', o)
  {
    assert w'.out == w.out + w'.out[|w.out|..];
    FilterAppend(w.out, w'.out[|w.out|..], OnOffer(o));
  }

  /** A step that touches neither offers nor the selections that read one. */
  lemma QuietOfferStep(w: World, w': World, o: OfferId)
    requires w.out <= w'.out && forall r :: r in w'.out[|w.out|..] ==> !OnOffer(o)(r)
    requires Live(w', o) == Live(w, o)
    ensures OfferStep(w, w', o)
  {
    FilterNone(w'.out[|w.out|..], OnOffer(o));
  }

  lemma SameHoldersSameLife(w: World, w': World, o: OfferId)
    requires forall n :: PendingAt(w, n, o) <==> PendingAt(w', n, o)
    requires forall n, ty :: ReadAt(w, n, ty, o) <==> ReadAt(w', n, ty, o)
    ensures Live(w, o) == Live(w', o)
  {
  }

  lemma DestroyOffersAbout(os: seq<OfferId>, o: OfferId)
    requires NoDuplicates(os)
    ensures Filter(DestroyOffers(os), OnOffer(o)) == if o in os then [DestroyOffer(o)] else []
  {
    if o in os {
      var i :| 0 <= i < |os| && os[i] == o;
      FilterOne(DestroyOffers(os), OnOffer(o), i);
    } else {
      FilterNone(DestroyOffers(os), OnOffer(o));
    }
  }

  lemma FilterFour(a: seq<Request>, b: seq<Request>, c: seq<Request>, d: seq<Request>, f: Request -> bool)
    ensures Filter(a + b + c + d, f) == Filter(a, f) + Filter(b, f) + Filter(c, f) + Filter(d, f)
  {
    FilterAppend(a + b + c, d, f);
    FilterAppend(a + b, c, f);
    FilterAppend(a, b, f);
  }

  lemma TeardownParts(n: SeatName, v: SeatView, env: Env, o: OfferId)
    requires EnvOk(env)
    ensures Filter(SeatTeardown(n, v, env), OnOffer(o)) ==
            (if o in v.offers then [DestroyOffer(o)] else [])
            + Filter(Teardown(v.selection.regular), OnOffer(o)) + Filter(Teardown(v.selection.primary), OnOffer(o))
  {
    var os := env.order(v.offers.Keys);
    assert Lists(os, v.offers.Keys);
    assert o in os <==> o in Elements(os);
    var a, b, c := DestroyOffers(os), Teardown(v.selection.regular), Teardown(v.selection.primary);
    var d := DestroySources(env.order(v.sources.regular)) + DestroySources(env.order(v.sources.primary)) +
        [DestroyDevice(n)];
    DestroyOffersAbout(os, o);
    FilterNone(d, OnOffer(o));
    assert SeatTeardown(n, v, env) == a + b + c + d;
    FilterFour(a, b, c, d, OnOffer(o));
  }

  lemma SeatHoldsOnce(w: World, n: SeatName, o: OfferId, st: Settings, written: Content)
    requires WorldOk(w, st, written)
    ensures !(PendingAt(w, n, o) && ReadAt(w, n, Regular, o))
    ensures !(PendingAt(w, n, o) && ReadAt(w, n, Primary, o))
    ensures !(ReadAt(w, n, Regular, o) && ReadAt(w, n, Primary, o))
  {
    OnePlaceOnly(w, o, st, written);
  }

  lemma TeardownOfSelection(w: World, n: SeatName, ty: SelectionType, o: OfferId)
    requires n in w.seats
    ensures Filter(Teardown(w.seats[n].selection.At(ty)), OnOffer(o)) ==
              if ReadAt(w, n, ty, o) then [DestroyOffer(o)] else []
  {
    TeardownOne(At(w, n, ty), o);
  }

  /** A seat that is torn down destroys each offer it holds, once. */
  lemma TeardownAbout(w: World, n: SeatName, o: OfferId, st: Settings, env: Env, written: Content)
    requires WorldOk(w, st, written) && EnvOk(env) && n in w.seats
    ensures Filter(SeatTeardown(n, w.seats[n], env), OnOffer(o)) ==
            if PendingAt(w, n, o) || ReadAt(w, n, Regular, o) || ReadAt(w, n, Primary, o) then [DestroyOffer(o)] else []
  {
    SeatHoldsOnce(w, n, o, st, written);
    TeardownParts(n, w.seats[n], env, o);
    TeardownOfSelection(w, n, Regular, o);
    TeardownOfSelection(w, n, Primary, o);
    assert w.seats[n].selection.At(Regular) == w.seats[n].selection.regular;
    assert w.seats[n].selection.At(Primary) == w.seats[n].selection.primary;
  }

  lemma TeardownOne(s: Option<Selection>, o: OfferId)
    ensures Filter(Teardown(s), OnOffer(o)) ==
            if s.Some? && s.value.ReadMimes? && s.value.offer == o then [DestroyOffer(o)] else []
  {
    if s.Some? && s.value.ReadMimes? {
      assert Teardown(s)[..0] == [];
    }
  }

  lemma RemovedHolders(w: World, n: SeatName, o: OfferId, env: Env)
    requires n in w.seats
    ensures var w' := RemoveSeat(w, n, env);
            && (forall m :: PendingAt(w', m, o) <==> PendingAt(w, m, o) && m != n)
            && (forall m, ty :: ReadAt(w', m, ty, o) <==> ReadAt(w, m, ty, o) && m != n)
  {
  }

  lemma RemoveSeatStep(w: World, n: SeatName, o: OfferId, st: Settings, env: Env, written: Content)
    requires WorldOk(w, st, written) && EnvOk(env)
    ensures OfferStep(w, RemoveSeat(w, n, env), o)
  {
    var w' := RemoveSeat(w, n, env);
    if n in w.seats {
      var d := SeatTeardown(n, w.seats[n], env);
      assert w'.out[|w.out|..] == d;
      TeardownAbout(w, n, o, st, env, written);
      OnePlaceOnly(w, o, st, written);
      RemovedHolders(w, n, o, env);
      if ReadAt(w, n, Regular, o) || ReadAt(w, n, Primary, o) || PendingAt(w, n, o) {
        assert Live(w, o) && !Live(w', o);
      } else {
        assert forall ty :: !ReadAt(w, n, ty, o);
        SameHoldersSameLife(w, w', o);
      }
    } else {
      assert w'.out[|w.out|..] == [];
    }
  }

  /** A world whose seats differ only by a new, empty one. */
  lemma NewSeatStep(w: World, w1: World, w': World, n: SeatName, o: OfferId, st: Settings)
    requires OfferStep(w, w1, o) && w'.out == w1.out
    requires w'.seats == w1.seats || (n !in w1.seats && w'.seats == w1.seats[n := NewSeat(st)])
    ensures OfferStep(w, w', o)
  {
    assert forall m :: PendingAt(w', m, o) <==> PendingAt(w1, m, o);
    assert forall m, ty :: ReadAt(w', m, ty, o) <==> ReadAt(w1, m, ty, o);
    SameHoldersSameLife(w1, w', o);
  }

  lemma SeatEventEffect(w: World, e: Event, st: Settings, env: Env)
    requires e.SeatAdded? || e.GlobalRemoved? || e.Finished?
    ensures var w', w1 := Dispatch(w, e, st, env), RemoveSeat(w, e.seat, env);
            if e == SeatAdded(e.seat, false) then w'.out == w.out && w'.seats == w.seats
            else && w'.out == w1.out
                 && (w'.seats == w1.seats || (e.seat !in w1.seats && w'.seats == w1.seats[e.seat := NewSeat(st)]))
  {
  }

  lemma SeatEventStep(w: World, e: Event, o: OfferId, st: Settings, env: Env, written: Content)
    requires WorldOk(w, st, written) && EnvOk(env)
    requires e.SeatAdded? || e.GlobalRemoved? || e.Finished?
    ensures OfferStep(w, Dispatch(w, e, st, env), o)
  {
    var w' := Dispatch(w, e, st, env);
    SeatEventEffect(w, e, st, env);
    if e == SeatAdded(e.seat, false) {
      SameWorldStep(w, w', o);
    } else {
      RemoveSeatStep(w, e.seat, o, st, env, written);
      NewSeatStep(w, RemoveSeat(w, e.seat, env), w', e.seat, o, st);
    }
  }

  lemma SameWorldStep(w: World, w': World, o: OfferId)
    requires w'.out == w.out && w'.seats == w.seats
    ensures OfferStep(w, w', o)
  {
    assert w'.out[|w.out|..] == [];
    SameHoldersSameLife(w, w', o);
  }

  lemma DataOfferStep(w: World, e: Event, o: OfferId, st: Settings, env: Env, written: Content)
    requires WorldOk(w, st, written) && FreshOffer(w.history, e) && e.DataOffer?
    ensures OfferStep(w, Dispatch(w, e, st, env), o)
    ensures e.offer == o && e.seat in w.seats ==> Live(Dispatch(w, e, st, env), o)
  {
    var w' := Dispatch(w, e, st, env);
    OnePlaceOnly(w, e.offer, st, written);
    assert !PendingAt(w, e.seat, e.offer);
    assert w'.out[|w.out|..] == [];
    assert forall n, ty :: At(w', n, ty) == At(w, n, ty);
    assert forall n :: PendingAt(w', n, o) <==> PendingAt(w, n, o) || (n == e.seat && n in w.seats && o == e.offer);
    if o == e.offer && e.seat in w.seats {
      assert PendingAt(w', e.seat, o);
    } else {
      SameHoldersSameLife(w, w', o);
    }
  }

  lemma QuietEventStep(w: World, e: Event, o: OfferId, st: Settings, env: Env)
    requires e.OfferedType? || e.Send? || e.Cancelled? || e.Done?
    ensures OfferStep(w, Dispatch(w, e, st, env), o)
  {
    var w' := Dispatch(w, e, st, env);
    assert forall n :: PendingAt(w', n, o) <==> PendingAt(w, n, o);
    forall n, ty ensures ReadAt(w', n, ty, o) <==> ReadAt(w, n, ty, o) {
      SlotUntouched(w, e, n, ty, st, env);
    }
    SameHoldersSameLife(w, w', o);
    QuietOfferStep(w, w', o);
  }

  /** The destroy request for an offer that no selection takes over. */
  function Declined(w: World, e: Event, st: Settings): seq<Request>
    requires e.Selected? && e.seat in w.seats
  {
    var v := w.seats[e.seat];
    if e.maybeOffer.Some? && e.maybeOffer.value in v.offers
       && (v.selection.At(e.ty).None? || Named(v, e.maybeOffer, st).GotIgnoredEvent?)
    then [DestroyOffer(e.maybeOffer.value)] else []
  }

  /** What a selection event sends. */
  lemma SelectedSends(w: World, e: Event, st: Settings, env: Env)
    requires e.Selected?
    ensures Dispatch(w, e, st, env).out ==
            w.out + if e.seat in w.seats then Teardown(At(w, e.seat, e.ty)) + Declined(w, e, st) else []
  {
  }

  /** How a selection event moves the places that hold an offer. */
  lemma SelectedMoves(w: World, e: Event, o: OfferId, st: Settings, env: Env)
    requires e.Selected?
    ensures var w' := Dispatch(w, e, st, env);
            && (forall n :: PendingAt(w', n, o) <==> PendingAt(w, n, o) && !(n == e.seat && e.maybeOffer == Some(o)))
            && (forall n, ty :: !Selects(e, n, ty) ==> (ReadAt(w', n, ty, o) <==> ReadAt(w, n, ty, o)))
            && (ReadAt(w', e.seat, e.ty, o) <==>
                  && PendingAt(w, e.seat, o) && e.maybeOffer == Some(o) && At(w, e.seat, e.ty).Some?
                  && Named(w.seats[e.seat], e.maybeOffer, st).ReadMimes?)
  {
    var w' := Dispatch(w, e, st, env);
    forall n, ty | !Selects(e, n, ty)
      ensures ReadAt(w', n, ty, o) <==> ReadAt(w, n, ty, o)
    {
      SlotUntouched(w, e, n, ty, st, env);
    }
    forall n ensures PendingAt(w', n, o) <==> PendingAt(w, n, o) && !(n == e.seat && e.maybeOffer == Some(o)) {
      SelectedTables(w, e, n, st, env);
    }
    SlotSelected(w, e, e.seat, e.ty, st, env);
  }

  lemma DeclinedAbout(w: World, e: Event, o: OfferId, st: Settings)
    requires e.Selected? && e.seat in w.seats
    ensures Filter(Declined(w, e, st), OnOffer(o)) ==
            if PendingAt(w, e.seat, o) && e.maybeOffer == Some(o)
               && (At(w, e.seat, e.ty).None? || Named(w.seats[e.seat], e.maybeOffer, st).GotIgnoredEvent?)
            then [DestroyOffer(o)] else []
  {
    assert Declined(w, e, st) != [] ==> Declined(w, e, st)[..0] == [];
  }

  /** What it sends about one offer. */
  lemma SelectedSendsAbout(w: World, e: Event, o: OfferId, st: Settings, env: Env)
    requires e.Selected?
    ensures var w' := Dispatch(w, e, st, env);
            && w.out <= w'.out
            && Filter(w'.out[|w.out|..], OnOffer(o)) ==
               (if ReadAt(w, e.seat, e.ty, o) then [DestroyOffer(o)] else []) +
               (if PendingAt(w, e.seat, o) && e.maybeOffer == Some(o)
                   && (At(w, e.seat, e.ty).None? || Named(w.seats[e.seat], e.maybeOffer, st).GotIgnoredEvent?)
                then [DestroyOffer(o)] else [])
  {
    SelectedSends(w, e, st, env);
    if e.seat in w.seats {
      TeardownOne(At(w, e.seat, e.ty), o);
      DeclinedAbout(w, e, o, st);
      FilterAppend(Teardown(At(w, e.seat, e.ty)), Declined(w, e, st), OnOffer(o));
      assert Dispatch(w, e, st, env).out[|w.out|..] == Teardown(At(w, e.seat, e.ty)) + Declined(w, e, st);
    } else {
      assert Dispatch(w, e, st, env).out[|w.out|..] == [];
    }
  }

  /** An offer that is named by a selection event (`named`) either goes on to be read (`kept`) or is
      destroyed, and so is the offer that was read in that place before. */
  lemma NamingStep(w: World, w': World, n: SeatName, ty: SelectionType, o: OfferId, named: bool, kept: bool)
    requires (kept ==> named) && (named ==> PendingAt(w, n, o)) && w.out <= w'.out
    requires forall m :: PendingAt(w, n, o) && PendingAt(w, m, o) ==> n == m
    requires forall m, k, tz :: !(PendingAt(w, m, o) && ReadAt(w, k, tz, o))
    requires forall m, tz :: ReadAt(w, n, ty, o) && ReadAt(w, m, tz, o) ==> n == m && ty == tz
    requires forall m :: PendingAt(w', m, o) <==> PendingAt(w, m, o) && !(m == n && named)
    requires forall m, tz :: !(m == n && tz == ty) ==> (ReadAt(w', m, tz, o) <==> ReadAt(w, m, tz, o))
    requires ReadAt(w', n, ty, o) <==> kept
    requires Filter(w'.out[|w.out|..], OnOffer(o)) ==
             (if ReadAt(w, n, ty, o) then [DestroyOffer(o)] else []) +
             (if named && !kept then [DestroyOffer(o)] else [])
    ensures OfferStep(w, w', o)
  {
    if named {
      assert Live(w, o) && !ReadAt(w, n, ty, o);
      assert Live(w', o) <==> kept;
    } else if ReadAt(w, n, ty, o) {
      assert Live(w, o) && !Live(w', o);
    } else {
      SameHoldersSameLife(w, w', o);
    }
  }

  lemma SelectedStep(w: World, e: Event, o: OfferId, st: Settings, env: Env, written: Content)
    requires WorldOk(w, st, written) && e.Selected?
    ensures OfferStep(w, Dispatch(w, e, st, env), o)
  {
    var w' := Dispatch(w, e, st, env);
    SelectedMoves(w, e, o, st, env);
    SelectedSendsAbout(w, e, o, st, env);
    OnePlaceOnly(w, o, st, written);
    NamingStep(w, w', e.seat, e.ty, o, PendingAt(w, e.seat, o) && e.maybeOffer == Some(o), ReadAt(w', e.seat, e.ty, o));
  }

  lemma DispatchStep(w: World, e: Event, o: OfferId, st: Settings, env: Env, written: Content)
    requires WorldOk(w, st, written) && FreshOffer(w.history, e) && EnvOk(env)
    ensures OfferStep(w, Dispatch(w, e, st, env), o)
    ensures o in Introduced(Then(w.history, e)) && o !in Introduced(w.history) ==> Live(Dispatch(w, e, st, env), o)
  {
    match e {
      case Selected(_, _, _) => SelectedStep(w, e, o, st, env, written);
      case DataOffer(_, _) =>
        assert SeatOk(w, e.seat, st);
        DataOfferStep(w, e, o, st, env, written);
      case OfferedType(_, _, _) => QuietEventStep(w, e, o, st, env);
      case Send(_, _, _, _) => QuietEventStep(w, e, o, st, env);
      case Cancelled(_) => QuietEventStep(w, e, o, st, env);
      case Done => QuietEventStep(w, e, o, st, env);
      case SeatAdded(_, _) => SeatEventStep(w, e, o, st, env, written);
      case GlobalRemoved(_, _) => SeatEventStep(w, e, o, st, env, written);
      case Finished(_) => SeatEventStep(w, e, o, st, env, written);
    }
  }

  lemma DispatchProper(w: World, e: Event, st: Settings, env: Env, written: Content)
    requires WorldOk(w, st, written) && FreshOffer(w.history, e) && EnvOk(env) && OffersProper(w)
    ensures OffersProper(Dispatch(w, e, st, env))
  {
    var w' := Dispatch(w, e, st, env);
    DispatchOk(w, e, st, env, written);
    LedgersGrow(w, e, st, env);
    forall o
      ensures if o in Introduced(w'.history) then OfferTrace(Filter(w'.out, OnOffer(o)), o, Live(w', o))
              else Filter(w'.out, OnOffer(o)) == [] && !Live(w', o)
    {
      DispatchStep(w, e, o, st, env, written);
      OnePlaceOnly(w', o, st, written);
      OfferStepProper(w, w', o);
    }
  }

  /** A step of the loop on one slot: what it sends about offers. */
  ghost predicate SlotSends(w: World, w': World, n: SeatName, ty: SelectionType) {
    && OnlySlot(w, w', n, ty)
    && var d := w'.out[|w.out|..];
       if !IsReading(w, n, ty) then !IsReading(w', n, ty) && forall r, o :: r in d ==> !OnOffer(o)(r)
       else
         var o := At(w, n, ty).value.offer;
         && OfferTrace(Filter(d, OnOffer(o)), o, IsReading(w', n, ty))
         && (forall r, x :: r in d && x != o ==> !OnOffer(x)(r))
         && (IsReading(w', n, ty) ==> At(w', n, ty).value.offer == o)
  }

  lemma SlotStepProper(w: World, w': World, n: SeatName, ty: SelectionType, st: Settings, written: Content)
    requires WorldOk(w, st, written) && WorldOk(w', st, written) && SlotSends(w, w', n, ty) && OffersProper(w)
    ensures OffersProper(w')
  {
    forall o
      ensures if o in Introduced(w'.history) then OfferTrace(Filter(w'.out, OnOffer(o)), o, Live(w', o))
              else Filter(w'.out, OnOffer(o)) == [] && !Live(w', o)
    {
      assert forall m :: PendingAt(w', m, o) <==> PendingAt(w, m, o);
      assert forall m, tz :: m != n || tz != ty ==> (ReadAt(w', m, tz, o) <==> ReadAt(w, m, tz, o));
      OnePlaceOnly(w, o, st, written);
      OnePlaceOnly(w', o, st, written);
      if ReadAt(w, n, ty, o) {
        assert Live(w', o) <==> ReadAt(w', n, ty, o);
      } else {
        assert !ReadAt(w', n, ty, o);
        SameHoldersSameLife(w, w', o);
        QuietOfferStep(w, w', o);
      }
      OfferStepProper(w, w', o);
    }
  }

  lemma PrepareReadingOut(w: World, n: SeatName, ty: SelectionType, st: Settings, env: Env, c: Created)
    requires IsReading(w, n, ty)
    requires c == CreatePipes(env.typeOrder(At(w, n, ty).value.unique), OpenFor(env, n, ty), st)
    ensures var w' := Prepare(w, n, ty, st, env).0;
            var o := At(w, n, ty).value.offer;
            if c.error || c.pipes == [] then
              w'.out == w.out + (Receives(o, c.pipes) + [DestroyOffer(o)]) && !IsReading(w', n, ty)
            else w'.out == w.out + Receives(o, c.pipes) && IsReading(w', n, ty) && At(w', n, ty).value.offer == o
  {
  }

  lemma ReceivesThenDestroy(o: OfferId, pipes: seq<PipeRecord>, last: bool)
    ensures var d := Receives(o, pipes) + if last then [DestroyOffer(o)] else [];
            OfferTrace(d, o, !last) && forall r :: r in d ==> OnOffer(o)(r)
  {
  }

  lemma PrepareReadingSends(w: World, n: SeatName, ty: SelectionType, st: Settings, env: Env)
    requires IsReading(w, n, ty)
    ensures var w' := Prepare(w, n, ty, st, env).0;
            var o := At(w, n, ty).value.offer;
            && w.out <= w'.out
            && OfferTrace(w'.out[|w.out|..], o, IsReading(w', n, ty))
            && (forall r :: r in w'.out[|w.out|..] ==> OnOffer(o)(r))
            && (IsReading(w', n, ty) ==> At(w', n, ty).value.offer == o)
  {
    var s := At(w, n, ty).value;
    var c := CreatePipes(env.typeOrder(s.unique), OpenFor(env, n, ty), st);
    PrepareReadingOut(w, n, ty, st, env, c);
    ReceivesThenDestroy(s.offer, c.pipes, c.error || c.pipes == []);
    var d := Prepare(w, n, ty, st, env).0.out[|w.out|..];
    assert d == Receives(s.offer, c.pipes) + if c.error || c.pipes == [] then [DestroyOffer(s.offer)] else [];
  }

  lemma PrepareProper(w: World, n: SeatName, ty: SelectionType, st: Settings, env: Env, written: Content)
    requires WorldOk(w, st, written) && EnvOk(env) && Ripe(w, n, ty) && OffersProper(w)
    ensures OffersProper(Prepare(w, n, ty, st, env).0)
  {
    var w' := Prepare(w, n, ty, st, env).0;
    PrepareOk(w, n, ty, st, env, written);
    var d := w'.out[|w.out|..];
    if IsReading(w, n, ty) {
      PrepareReadingSends(w, n, ty, st, env);
      FilterAll(d, OnOffer(At(w, n, ty).value.offer));
    } else {
      assert d == [];
    }
    SlotStepProper(w, w', n, ty, st, written);
  }

  lemma ResolveProper(w: World, a: Awaiting, st: Settings, written: Content)
    requires WorldOk(w, st, written) && OffersProper(w) && Resolve(w, a).Continues?
    requires IsReading(w, a.seat, a.ty) && !Flag(w, a.seat, a.ty) ==> Fits(w, a, st, written)
    ensures OffersProper(Resolve(w, a).world)
  {
    var w' := Resolve(w, a).world;
    ResolveOk(w, a, st, written);
    if IsReading(w, a.seat, a.ty) && !Flag(w, a.seat, a.ty) {
      var o := At(w, a.seat, a.ty).value.offer;
      assert w'.out[|w.out|..] == [DestroyOffer(o)];
      assert [DestroyOffer(o)][..0] == [];
      SlotStepProper(w, w', a.seat, a.ty, st, written);
    } else {
      assert w' == w;
    }
  }

  lemma SetClipboardSends(w: World, n: SeatName, ty: SelectionType, ordered: seq<Mime>, data: map<Mime, Bytes>)
    requires At(w, n, ty).Some? && !IsReading(w, n, ty)
    ensures var w' := SetClipboard(w, n, ty, ordered, data);
            && w.out <= w'.out
            && forall r, o :: r in w'.out[|w.out|..] ==> !OnOffer(o)(r)
  {
    var w' := SetClipboard(w, n, ty, ordered, data);
    var offered := Keep(ordered, data.Keys);
    assert w'.out[|w.out|..] == [CreateSource(w.nextSource)] + OfferTypes(w.nextSource, offered)
      + (if w.nextSource in w.seats[n].sources.At(ty) then [DestroySource(w.nextSource)] else [])
      + [SetSelection(n, ty, w.nextSource)];
  }

  lemma PublishProper(w: World, n: SeatName, ty: SelectionType, st: Settings, written: Content)
    requires WorldOk(w, st, written) && OffersProper(w)
    ensures OffersProper(Publish(w, n, ty))
  {
    var w' := Publish(w, n, ty);
    PublishOk(w, n, ty, st, written);
    if !Posted(w, n, ty) {
      SetClipboardSends(w, n, ty, At(w, n, ty).value.ordered, At(w, n, ty).value.data);
      SlotStepProper(w, w', n, ty, st, written);
    }
  }

  /** Reading sends nothing about offers. */
  lemma DeliverSends(w: World, n: SeatName, ty: SelectionType, i: nat, d: Delivery, st: Settings)
    requires CanRead(w, n, ty, i) && Deliver(w, n, ty, i, d, st).Continues?
    ensures var w' := Deliver(w, n, ty, i, d, st).world;
            && w.out <= w'.out
            && forall r, o :: r in w'.out[|w.out|..] ==> !OnOffer(o)(r)
  {
    var s := At(w, n, ty).value;
    var step := Wake(s.reader, i, d, st);
    var w1 := if d.Broken? then NoteFault(w, n, ty, s.reader.pipes[i].mime) else w;
    assert w1.out == w.out && w1.seats == w.seats;
    if step.verdict.Complete? && Collect(step.reader.pipes).Some? {
      SetClipboardSends(w1, n, ty, s.ordered, Collect(step.reader.pipes).value);
    }
  }

  lemma DeliverProper(w: World, n: SeatName, ty: SelectionType, i: nat, d: Delivery, st: Settings, written: Content)
    requires WorldOk(w, st, written) && CanRead(w, n, ty, i) && Genuine(w, n, ty, i, d, written) && OffersProper(w)
    ensures Deliver(w, n, ty, i, d, st).Continues? && OffersProper(Deliver(w, n, ty, i, d, st).world)
  {
    DeliverOk(w, n, ty, i, d, st, written);
    DeliverSends(w, n, ty, i, d, st);
    SlotStepProper(w, Deliver(w, n, ty, i, d, st).world, n, ty, st, written);
  }

  // ----- over whole actions -----

  lemma {:induction false} DispatchAllProper(w: World, batch: seq<Event>, awaiting: seq<Awaiting>, st: Settings,
                                             env: Env, written: Content)
    requires WorldOk(w, st, written) && EnvOk(env) && FreshOffers(w.history, batch)
    requires RoundOk(w, awaiting, st, written) && OffersProper(w)
    ensures OffersProper(DispatchAll(w, batch, st, env))
  {
    if batch != [] {
      var front := batch[..|batch| - 1];
      DispatchAllProper(w, front, awaiting, st, env, written);
      DispatchAllOk(w, front, awaiting, st, env, written);
      DispatchAllHistory(w, front, st, env);
      DispatchProper(DispatchAll(w, front, st, env), batch[|batch| - 1], st, env, written);
    }
  }

  lemma {:induction false} PrepareAllProper(w: World, slots: seq<Slot>, st: Settings, env: Env, written: Content)
    requires WorldOk(w, st, written) && EnvOk(env) && NoDuplicates(slots) && OffersProper(w)
    requires forall n, ty :: Ripe(w, n, ty)
    ensures OffersProper(PrepareAll(w, slots, st, env).0)
  {
    if slots != [] {
      var front, last := slots[..|slots| - 1], slots[|slots| - 1];
      assert slots == front + [last];
      PrepareAllProper(w, front, st, env, written);
      PrepareAllOk(w, front, st, env, written);
      assert last !in front && last == Slot(last.seat, last.ty);
      PrepareProper(PrepareAll(w, front, st, env).0, last.seat, last.ty, st, env, written);
    }
  }

  lemma {:induction false} ResolveAllProper(w: World, awaiting: seq<Awaiting>, st: Settings, written: Content)
    requires WorldOk(w, st, written) && DistinctSlots(awaiting) && OffersProper(w)
    requires forall a :: a in awaiting && IsReading(w, a.seat, a.ty) && !Flag(w, a.seat, a.ty) ==>
             Fits(w, a, st, written)
    ensures ResolveAll(w, awaiting).Continues? ==> OffersProper(ResolveAll(w, awaiting).world)
  {
    if awaiting != [] && ResolveAll(w, awaiting).Continues? {
      var front, a := awaiting[..|awaiting| - 1], awaiting[|awaiting| - 1];
      assert awaiting == front + [a];
      ResolveAllProper(w, front, st, written);
      ResolveAllOk(w, front, st, written);
      var w1 := ResolveAll(w, front).world;
      assert !Covered(front, a.seat, a.ty);
      assert At(w1, a.seat, a.ty) == At(w, a.seat, a.ty);
      ResolveProper(w1, a, st, written);
    }
  }

  lemma {:induction false} PublishAllProper(w: World, slots: seq<Slot>, st: Settings, written: Content)
    requires WorldOk(w, st, written) && OffersProper(w)
    requires forall n, ty :: Settled(w, n, ty)
    ensures OffersProper(PublishAll(w, slots))
  {
    if slots != [] {
      var front, last := slots[..|slots| - 1], slots[|slots| - 1];
      PublishAllProper(w, front, st, written);
      PublishAllOk(w, front, st, written);
      PublishProper(PublishAll(w, front), last.seat, last.ty, st, written);
    }
  }

  lemma OffersProperIgnores(w: World, w': World)
    requires OffersProper(w) && w'.history == w.history && w'.out == w.out + [Sync]
    requires w'.seats.Keys == w.seats.Keys
    requires forall n :: n in w.seats ==>
               w'.seats[n].offers == w.seats[n].offers && w'.seats[n].selection == w.seats[n].selection
    ensures OffersProper(w')
  {
    forall o
      ensures if o in Introduced(w'.history) then OfferTrace(Filter(w'.out, OnOffer(o)), o, Live(w', o))
              else Filter(w'.out, OnOffer(o)) == [] && !Live(w', o)
    {
      FilterAppend(w.out, [Sync], OnOffer(o));
      FilterNone([Sync], OnOffer(o));
      assert forall n :: PendingAt(w', n, o) <==> PendingAt(w, n, o);
      assert forall n, ty :: ReadAt(w', n, ty, o) <==> ReadAt(w, n, ty, o);
      SameHoldersSameLife(w, w', o);
    }
  }

  lemma TurnProper(w: World, st: Settings, env: Env, written: Content)
    requires WorldOk(w, st, written) && EnvOk(env) && OffersProper(w)
    requires forall n, ty :: Ripe(w, n, ty)
    ensures OffersProper(TakeTurn(w, st, env).world)
  {
    var ns := env.order(w.seats.Keys);
    assert Lists(ns, w.seats.Keys);
    SlotsList(ns);
    PrepareAllOk(w, Slots(ns), st, env, written);
    PrepareAllProper(w, Slots(ns), st, env, written);
    var (w1, awaiting) := PrepareAll(w, Slots(ns), st, env);
    if awaiting == [] {
      forall n, ty ensures Settled(w1, n, ty) {
        if n in w1.seats {
          assert n in Elements(ns);
          assert Slot(n, ty) in Slots(ns);
          assert Settled(w1, n, ty) || Covered(awaiting, n, ty);
        }
      }
      PublishAllProper(w1, Slots(env.order(w1.seats.Keys)), st, written);
    } else {
      OffersProperIgnores(w1, Emit(ClearFlags(w1), [Sync]));
    }
  }

  lemma ApplyProper(c: Client, a: Action, st: Settings, written: Content)
    requires ClientOk(c, st, written) && Legal(c, a, written) && OffersProper(c.world)
    ensures OffersProper(Apply(c, a, st).world)
  {
    if a.PipeReady? {
      DeliverProper(c.world, a.seat, a.ty, a.pipe, a.delivery, st, written);
    } else {
      var awaiting := if c.phase.InRoundtrip? then c.phase.awaiting else [];
      assert RoundOk(c.world, awaiting, st, written);
      DispatchAllProper(c.world, a.batch, awaiting, st, a.env, written);
      DispatchAllOk(c.world, a.batch, awaiting, st, a.env, written);
      var w1 := DispatchAll(c.world, a.batch, st, a.env);
      if !w1.managerRemoved {
        if a.Events? {
          forall n, ty ensures Ripe(w1, n, ty) {
            assert RoundSlotOk(w1, [], n, ty);
          }
          TurnProper(w1, st, a.env, written);
        } else {
          ResolvedProper(w1, awaiting, st, a.env, written);
        }
      }
    }
  }

  lemma ResolvedProper(w1: World, awaiting: seq<Awaiting>, st: Settings, env: Env, written: Content)
    requires WorldOk(w1, st, written) && RoundOk(w1, awaiting, st, written) && EnvOk(env) && OffersProper(w1)
    ensures match ResolveAll(w1, awaiting) case Panicked => true
            case Continues(w2) =>
              if AnyFlag(w1) then OffersProper(TakeTurn(w2, st, env).world)
              else OffersProper(PublishAll(w2, Slots(env.order(w2.seats.Keys))))
  {
    ResolveAllOk(w1, awaiting, st, written);
    ResolveAllProper(w1, awaiting, st, written);
    if ResolveAll(w1, awaiting).Continues? {
      var w2 := ResolveAll(w1, awaiting).world;
      forall n, ty ensures if AnyFlag(w1) then Ripe(w2, n, ty) else Settled(w2, n, ty) {
        assert RoundSlotOk(w1, awaiting, n, ty);
        if !AnyFlag(w1) { assert !Flag(w1, n, ty); }
      }
      if AnyFlag(w1) {
        TurnProper(w2, st, env, written);
      } else {
        PublishAllProper(w2, Slots(env.order(w2.seats.Keys)), st, written);
      }
    }
  }

  /** Linear ownership of offers, over every run: an offer that was introduced on a seat is asked for
      data any number of times and then destroyed once, and nothing follows the destruction; it is
      alive exactly as long as one place of the client holds it, and never held in two. */
  lemma {:induction false} OffersAreUsedLinearly(actions: seq<Action>, st: Settings, written: Content)
    requires LegalRun(actions, st, written)
    ensures OffersProper(Run(actions, st).world)
  {
    if actions != [] {
      var front := actions[..|actions| - 1];
      OffersAreUsedLinearly(front, st, written);
      RunsAreOk(front, st, written);
      ApplyProper(Run(front, st), actions[|actions| - 1], st, written);
    }
  }

  lemma RemovalEndsOffers(w: World, st: Settings, env: Env, written: Content, n: SeatName, o: OfferId)
    requires WorldOk(w, st, written) && OffersProper(w) && EnvOk(env)
    requires PendingAt(w, n, o) || exists ty :: ReadAt(w, n, ty, o)
    ensures var w' := RemoveSeat(w, n, env);
            !Live(w', o) && OfferTrace(Filter(w'.out, OnOffer(o)), o, false)
  {
    OnePlaceOnly(w, o, st, written);
    var w' := RemoveSeat(w, n, env);
    RemoveSeatStep(w, n, o, st, env, written);
    assert forall m :: PendingAt(w', m, o) ==> PendingAt(w, m, o) && m != n;
    assert forall m, ty :: ReadAt(w', m, ty, o) ==> ReadAt(w, m, ty, o) && m != n;
    assert !Live(w', o);
    OfferStepProper(w, w', o);
  }

  /** Removing a seat leaves none of its offers alive. */
  lemma RemovedSeatLeavesNothing(actions: seq<Action>, st: Settings, env: Env, written: Content, n: SeatName,
                                 o: OfferId)
    requires LegalRun(actions, st, written) && EnvOk(env)
    requires var w := Run(actions, st).world; PendingAt(w, n, o) || exists ty :: ReadAt(w, n, ty, o)
    ensures var w' := RemoveSeat(Run(actions, st).world, n, env);
            !Live(w', o) && OfferTrace(Filter(w'.out, OnOffer(o)), o, false)
  {
    RunsAreOk(actions, st, written);
    OffersAreUsedLinearly(actions, st, written);
    RemovalEndsOffers(Run(actions, st).world, st, env, written, n, o);
  }
}
