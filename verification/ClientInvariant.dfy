/** The invariant that ties the client's state to the history of dispatched events, at every
    suspension of every run. `written(o, m)` stands for all the bytes that the client behind offer
    `o` writes to the pipe it is handed for the MIME type `m`. */
module ClientInvariant {
  import opened Protocol
  import opened MimeAccounting
  import opened PipeReader
  import opened History
  import opened ClientSpec

  type Content = (OfferId, Mime) -> Bytes

  // ----- facts about histories -----

  ghost predicate FreshHistory(h: History) {
    h.Then? ==> FreshHistory(h.past) && FreshOffer(h.past, h.event)
  }

  /** The offer was introduced and then named by a selection event. */
  ghost predicate Resolved(h: History, o: OfferId) {
    o in Introduced(h) && forall n :: o !in Unresolved(h, n)
  }

  predicate Within(early: History, late: History) {
    late == early || (late.Then? && Within(early, late.past))
  }

  lemma {:induction false} UnresolvedFacts(h: History, n: SeatName)
    requires FreshHistory(h)
    ensures Unresolved(h, n) <= Introduced(h)
    ensures !Known(h, n) ==> Unresolved(h, n) == {}
    ensures forall m, o :: o in Unresolved(h, n) && o in Unresolved(h, m) ==> m == n
  {
    if h.Then? {
      UnresolvedFacts(h.past, n);
      forall m, o | o in Unresolved(h, n) && o in Unresolved(h, m)
        ensures m == n
      {
        UnresolvedFacts(h.past, m);
      }
    }
  }

  lemma ResolvedStays(h: History, e: Event, o: OfferId)
    requires Resolved(h, o) && FreshOffer(h, e)
    ensures Resolved(Then(h, e), o) && Advertised(Then(h, e), o) == Advertised(h, o)
  {
    forall n ensures o !in Unresolved(Then(h, e), n) {
      assert o !in Unresolved(h, n);
    }
  }

  /** Naming an unresolved offer resolves it. */
  lemma SelectionResolves(h: History, n: SeatName, ty: SelectionType, o: OfferId)
    requires FreshHistory(h) && Known(h, n) && o in Unresolved(h, n)
    ensures var h1 := Then(h, Selected(n, ty, Some(o)));
            Resolved(h1, o) && Advertised(h1, o) == Advertised(h, o)
  {
    UnresolvedFacts(h, n);
    var h1 := Then(h, Selected(n, ty, Some(o)));
    forall m ensures o !in Unresolved(h1, m) {
      UnresolvedFacts(h, m);
    }
  }

  function Origin(h: History, n: SeatName, ty: SelectionType): Option<OfferId> {
    match LastSelection(h, n, ty)
    case Some(Some(o)) => Some(o)
    case _ => None
  }

  // ----- the invariant of one selection -----

  predicate Active(s: Option<Selection>) {
    s.Some? && (s.value.ReadMimes? || s.value.GotPipes? || s.value.GotData?)
  }

  function FaultyOf(faults: set<(OfferId, Mime)>, o: OfferId): set<Mime> {
    set f | f in faults && f.0 == o :: f.1
  }

  /** The types of an offer that are expected to be read in full: all but the one that is never requested,
      unless that is asked for, and those that turned out faulty. */
  function Wanted(ordered: seq<Mime>, faulty: set<Mime>, st: Settings): set<Mime> {
    set m | m in ordered && (st.requestIgnored || m != "SAVE_TARGETS") && m !in faulty
  }

  /** The pipe was requested from offer `o`, and holds a prefix of what is written to it. */
  ghost predicate PipeOk(p: PipeRecord, o: OfferId, ordered: seq<Mime>, out: seq<Request>, faulty: set<Mime>,
                         st: Settings, written: Content)
  {
    && p.mime in ordered && !st.Skips(p.mime)
    && Receive(o, p.mime, p.fd) in out
    && RecordFaithful(p, written(o, p.mime))
    && (p.mime in faulty <==> p.buffer.Failed?)
  }

  /** The pipes are those of offer `o`: one for each type that is neither skipped nor faulty. */
  ghost predicate PipesOk(pipes: seq<PipeRecord>, o: OfferId, ordered: seq<Mime>, out: seq<Request>,
                          faulty: set<Mime>, st: Settings, written: Content)
  {
    && pipes != []
    && DistinctTypes(pipes)
    && (forall i :: 0 <= i < |pipes| ==> PipeOk(pipes[i], o, ordered, out, faulty, st, written))
    && (forall m :: m in Wanted(ordered, faulty, st) ==> exists i :: 0 <= i < |pipes| && pipes[i].mime == m)
    && (st.ignoreOnError ==> faulty == {})
  }

  ghost predicate DataOk(data: map<Mime, Bytes>, o: OfferId, ordered: seq<Mime>, faulty: set<Mime>,
                         st: Settings, written: Content)
  {
    && data != map[]
    && data.Keys == Wanted(ordered, faulty, st)
    && (forall m :: m in data ==> data[m] == written(o, m))
    && (st.ignoreOnError ==> faulty == {})
  }

  /** An active selection works on the offer of the most recent selection event. */
  ghost predicate SelectionOk(h: History, out: seq<Request>, faults: set<(OfferId, Mime)>, n: SeatName,
                              ty: SelectionType, s: Selection, st: Settings, written: Content)
    requires Active(Some(s))
  {
    var origin := Origin(h, n, ty);
    && origin.Some?
    && var o := origin.value;
       var names := NameBytes(Elements(s.ordered));
       && Resolved(h, o)
       && s.ordered == Advertised(h, o)
       && Welcome(s.ordered, st)
       && match s
          case ReadMimes(offer, ordered, _, bytesRead, _) =>
            && offer == o && bytesRead == names && !st.Exceeds(names)
          case GotPipes(ordered, reader) =>
            && ReaderOk(reader, names, st) && !AllFinished(reader.pipes)
            && PipesOk(reader.pipes, o, ordered, out, FaultyOf(faults, o), st, written)
          case GotData(ordered, data) => DataOk(data, o, ordered, FaultyOf(faults, o), st, written)
  }

  // ----- the invariant of the client -----

  ghost predicate OffersOk(h: History, n: SeatName, offers: map<OfferId, Offer>, st: Settings) {
    && offers.Keys == Unresolved(h, n)
    && forall o :: o in offers ==> offers[o] == AdvertiseAll(Advertised(h, o), st)
  }

  /** What a publication promises. The data come from the most recent selection event of the seat and
      type, at a time when no offer of the seat was unresolved. The offered list is what the client
      behind that offer advertised, in its order, without the types that were skipped or faulty; and
      for every offered type the stored bytes are exactly those that client wrote. */
  ghost predicate PublicationOk(p: Publication, st: Settings, written: Content) {
    var origin := Origin(p.history, p.seat, p.ty);
    && origin.Some?
    && Known(p.history, p.seat)
    && Unresolved(p.history, p.seat) == {}
    && var advertised := Advertised(p.history, origin.value);
       && Welcome(advertised, st)
       && p.offered == Keep(advertised, Wanted(advertised, p.faulty, st))
       && DataOk(p.data, origin.value, advertised, p.faulty, st, written)
  }

  /** No two active selections work on the same offer. */
  ghost predicate Exclusive(w: World) {
    forall n, ty, m, tz :: Active(At(w, n, ty)) && Active(At(w, m, tz)) && (n != m || ty != tz) ==>
      Origin(w.history, n, ty) != Origin(w.history, m, tz)
  }

  ghost predicate SelectionsOk(w: World, st: Settings, written: Content) {
    forall n, ty :: Active(At(w, n, ty)) ==>
      SelectionOk(w.history, w.out, w.faults, n, ty, At(w, n, ty).value, st, written)
  }

  ghost predicate SeatsOk(w: World, st: Settings) {
    forall n :: SeatOk(w, n, st)
  }

  ghost predicate SeatOk(w: World, n: SeatName, st: Settings) {
    && (n in w.seats <==> Known(w.history, n))
    && (n in w.seats ==> OffersOk(w.history, n, w.seats[n].offers, st))
    && (n in w.seats ==> forall ty :: At(w, n, ty).Some? <==> st.Enabled(ty))
  }

  ghost predicate PublicationsOk(w: World, st: Settings, written: Content) {
    forall p :: p in w.published ==> PublicationOk(p, st, written) && Within(p.history, w.history)
  }

  ghost predicate FaultsOk(w: World) {
    forall f :: f in w.faults ==> Resolved(w.history, f.0)
  }

  ghost predicate WorldOk(w: World, st: Settings, written: Content) {
    && FreshHistory(w.history)
    && FaultsOk(w)
    && SeatsOk(w, st)
    && SelectionsOk(w, st, written)
    && Exclusive(w)
    && PublicationsOk(w, st, written)
  }

  // ----- dispatching one event -----

  lemma SelectionOkLater(h: History, e: Event, out: seq<Request>, out': seq<Request>, faults: set<(OfferId, Mime)>,
                         n: SeatName, ty: SelectionType, s: Selection, st: Settings, written: Content)
    requires Active(Some(s)) && SelectionOk(h, out, faults, n, ty, s, st, written)
    requires FreshOffer(h, e) && out <= out'
    requires LastSelection(Then(h, e), n, ty) == LastSelection(h, n, ty)
    ensures SelectionOk(Then(h, e), out', faults, n, ty, s, st, written)
  {
    ResolvedStays(h, e, Origin(h, n, ty).value);
  }

  /** Everything that holds of a seat whose tables an event does not touch stays true. */
  lemma OffersOkLater(h: History, e: Event, n: SeatName, offers: map<OfferId, Offer>, st: Settings)
    requires FreshHistory(h) && OffersOk(h, n, offers, st) && FreshOffer(h, e) && Known(h, n)
    requires e.DataOffer? || e.OfferedType? || e.Selected? ==> e.seat != n
    requires !RemovesSeat(e, n) && !AddsSeat(e, n)
    ensures OffersOk(Then(h, e), n, offers, st)
  {
    UnresolvedFacts(h, n);
    if e.OfferedType? { UnresolvedFacts(h, e.seat); }
  }

  /** The same selection, except that some of its pipes may have turned out to be our own. */
  predicate SameButMarks(s: Option<Selection>, s': Option<Selection>) {
    || s == s'
    || (s.Some? && s'.Some? && s.value.ReadMimes? && s'.value.ReadMimes? && s.value.(fds := s'.value.fds) == s'.value)
  }

  /** The selection was left alone by the event, or the event started it anew. */
  ghost predicate Kept(w: World, w': World, n: SeatName, ty: SelectionType) {
    && LastSelection(w'.history, n, ty) == LastSelection(w.history, n, ty)
    && SameButMarks(At(w, n, ty), At(w', n, ty))
  }

  ghost predicate Started(w: World, w': World, e: Event, n: SeatName, ty: SelectionType, st: Settings,
                          written: Content) {
    && Selects(e, n, ty)
    && Origin(w'.history, n, ty).Some?
    && Origin(w'.history, n, ty).value in Unresolved(w.history, n)
    && Active(At(w', n, ty))
    && SelectionOk(w'.history, w'.out, w'.faults, n, ty, At(w', n, ty).value, st, written)
  }

  /** The frame of an event: the ledgers only grow, and every selection that is active afterwards was
      kept or started by the event. */
  ghost predicate Advances(w: World, w': World, e: Event, st: Settings, written: Content) {
    && w'.history == Then(w.history, e) && w.out <= w'.out && w'.faults == w.faults && w'.published == w.published
    && forall n, ty :: Active(At(w', n, ty)) ==> Kept(w, w', n, ty) || Started(w, w', e, n, ty, st, written)
  }

  lemma AdvanceKeepsSelections(w: World, w': World, e: Event, st: Settings, written: Content)
    requires WorldOk(w, st, written) && FreshOffer(w.history, e) && Advances(w, w', e, st, written)
    ensures SelectionsOk(w', st, written)
  {
    forall n, ty | Active(At(w', n, ty))
      ensures SelectionOk(w'.history, w'.out, w'.faults, n, ty, At(w', n, ty).value, st, written)
    {
      if Kept(w, w', n, ty) {
        SelectionOkLater(w.history, e, w.out, w'.out, w.faults, n, ty, At(w, n, ty).value, st, written);
      }
    }
  }

  lemma AdvanceKeepsExclusive(w: World, w': World, e: Event, st: Settings, written: Content)
    requires WorldOk(w, st, written) && FreshOffer(w.history, e) && Advances(w, w', e, st, written)
    ensures Exclusive(w')
  {
    forall n, ty, m, tz | Active(At(w', n, ty)) && Active(At(w', m, tz)) && (n != m || ty != tz)
      ensures Origin(w'.history, n, ty) != Origin(w'.history, m, tz)
    {
      if Kept(w, w', n, ty) { assert Active(At(w, n, ty)); }
      if Kept(w, w', m, tz) { assert Active(At(w, m, tz)); }
    }
  }

  lemma AdvanceOk(w: World, w': World, e: Event, st: Settings, written: Content)
    requires WorldOk(w, st, written) && FreshOffer(w.history, e)
    requires SeatsOk(w', st) && Advances(w, w', e, st, written)
    ensures WorldOk(w', st, written)
  {
    AdvanceKeepsSelections(w, w', e, st, written);
    AdvanceKeepsExclusive(w, w', e, st, written);
    forall f | f in w'.faults ensures Resolved(w'.history, f.0) {
      ResolvedStays(w.history, e, f.0);
    }
  }

  lemma SeatEventKeepsSeatOk(w: World, e: Event, n: SeatName, st: Settings, env: Env)
    requires FreshHistory(w.history) && SeatOk(w, n, st) && FreshOffer(w.history, e)
    requires e.SeatAdded? || e.GlobalRemoved? || e.Finished?
    ensures SeatOk(Dispatch(w, e, st, env), n, st)
  {
    var w' := Dispatch(w, e, st, env);
    if n in w'.seats && !AddsSeat(e, n) { OffersOkLater(w.history, e, n, w.seats[n].offers, st); }
  }

  lemma OfferEventElsewhere(w: World, e: Event, n: SeatName, st: Settings, env: Env)
    requires (e.DataOffer? || e.OfferedType?) && e.seat != n
    ensures var w' := Dispatch(w, e, st, env);
            (n in w'.seats <==> n in w.seats) && (n in w.seats ==> w'.seats[n] == w.seats[n])
  {
  }

  /** The table of the seat after one more offer, and after one more type of an offer. */
  lemma OfferAdded(h: History, e: Event, offers: map<OfferId, Offer>, st: Settings)
    requires FreshHistory(h) && FreshOffer(h, e) && e.DataOffer? && Known(h, e.seat) && OffersOk(h, e.seat, offers, st)
    ensures OffersOk(Then(h, e), e.seat, offers[e.offer := NEW_OFFER], st)
  {
    UnresolvedFacts(h, e.seat);
  }

  lemma TypeAdded(h: History, e: Event, offers: map<OfferId, Offer>, st: Settings)
    requires e.OfferedType? && OffersOk(h, e.seat, offers, st)
    ensures e.offer !in offers ==> OffersOk(Then(h, e), e.seat, offers, st)
    ensures e.offer in offers ==>
              OffersOk(Then(h, e), e.seat, offers[e.offer := Advertise(offers[e.offer], e.mime, st)], st)
  {
    var h1 := Then(h, e);
    assert Unresolved(h1, e.seat) == offers.Keys;
    forall o | o in offers
      ensures AdvertiseAll(Advertised(h1, o), st) ==
              if o == e.offer then Advertise(offers[o], e.mime, st) else offers[o]
    {
      TypeHistory(h, e, o);
      TypeAdvances(Advertised(h, o), e.mime, st);
    }
  }

  lemma TypeHistory(h: History, e: Event, o: OfferId)
    requires e.OfferedType? && o in Unresolved(h, e.seat)
    ensures Advertised(Then(h, e), o) == if o == e.offer then Advertised(h, o) + [e.mime] else Advertised(h, o)
  {
  }

  lemma OfferEventKeepsSeatOk(w: World, e: Event, n: SeatName, st: Settings, env: Env)
    requires FreshHistory(w.history) && SeatOk(w, n, st) && FreshOffer(w.history, e)
    requires e.DataOffer? || e.OfferedType?
    ensures SeatOk(Dispatch(w, e, st, env), n, st)
  {
    if e.seat != n {
      OfferEventElsewhere(w, e, n, st, env);
      if n in w.seats { OffersOkLater(w.history, e, n, w.seats[n].offers, st); }
    } else if n in w.seats {
      if e.DataOffer? {
        OfferAdded(w.history, e, w.seats[n].offers, st);
      } else {
        TypeAdded(w.history, e, w.seats[n].offers, st);
      }
    }
  }

  lemma TypeAdvances(before: seq<Mime>, m: Mime, st: Settings)
    ensures AdvertiseAll(before + [m], st) == Advertise(AdvertiseAll(before, st), m, st)
  {
    assert (before + [m])[..|before|] == before;
  }

  lemma SourceEventKeepsSeatOk(w: World, e: Event, n: SeatName, st: Settings, env: Env)
    requires FreshHistory(w.history) && SeatOk(w, n, st) && FreshOffer(w.history, e)
    requires e.Send? || e.Cancelled? || e.Done?
    ensures SeatOk(Dispatch(w, e, st, env), n, st)
  {
    if n in w.seats { OffersOkLater(w.history, e, n, w.seats[n].offers, st); }
  }

  /** What a selection event does to the tables of the seats. */
  lemma SelectedTables(w: World, e: Event, n: SeatName, st: Settings, env: Env)
    requires e.Selected?
    ensures var w' := Dispatch(w, e, st, env);
            && (n in w'.seats <==> n in w.seats)
            && (n in w.seats && e.seat != n ==> w'.seats[n] == w.seats[n])
            && (n in w.seats && e.seat == n ==>
                  && w'.seats[n].offers == w.seats[n].offers - (if e.maybeOffer.Some? then {e.maybeOffer.value} else {})
                  && forall ty :: w'.seats[n].selection.At(ty).Some? <==> w.seats[n].selection.At(ty).Some?)
  {
  }

  lemma SelectedKeepsSeatOk(w: World, e: Event, n: SeatName, st: Settings, env: Env)
    requires FreshHistory(w.history) && SeatOk(w, n, st) && FreshOffer(w.history, e)
    requires e.Selected?
    ensures SeatOk(Dispatch(w, e, st, env), n, st)
  {
    var w' := Dispatch(w, e, st, env);
    SelectedTables(w, e, n, st, env);
    if n in w.seats {
      if e.seat != n {
        OffersOkLater(w.history, e, n, w.seats[n].offers, st);
      } else {
        assert OffersOk(w'.history, n, w'.seats[n].offers, st);
      }
    }
  }

  lemma DispatchKeepsSeatOk(w: World, e: Event, n: SeatName, st: Settings, env: Env)
    requires FreshHistory(w.history) && SeatOk(w, n, st) && FreshOffer(w.history, e)
    ensures SeatOk(Dispatch(w, e, st, env), n, st)
  {
    match e
    case Selected(_, _, _) => SelectedKeepsSeatOk(w, e, n, st, env);
    case DataOffer(_, _) => OfferEventKeepsSeatOk(w, e, n, st, env);
    case OfferedType(_, _, _) => OfferEventKeepsSeatOk(w, e, n, st, env);
    case SeatAdded(_, _) => SeatEventKeepsSeatOk(w, e, n, st, env);
    case GlobalRemoved(_, _) => SeatEventKeepsSeatOk(w, e, n, st, env);
    case Finished(_) => SeatEventKeepsSeatOk(w, e, n, st, env);
    case _ => SourceEventKeepsSeatOk(w, e, n, st, env);
  }

  /** What an event other than a selection event does to a selection. */
  lemma MostEventsKeep(w: World, e: Event, st: Settings, env: Env, n: SeatName, ty: SelectionType)
    requires !e.Selected?
    requires n in w.seats <==> Known(w.history, n)
    ensures Active(At(Dispatch(w, e, st, env), n, ty)) ==> Kept(w, Dispatch(w, e, st, env), n, ty)
  {
  }

  lemma SelectedKeepsOthers(w: World, e: Event, st: Settings, env: Env, n: SeatName, ty: SelectionType)
    requires e.Selected? && !Selects(e, n, ty)
    ensures Kept(w, Dispatch(w, e, st, env), n, ty)
  {
  }

  lemma SelectedState(w: World, e: Event, st: Settings, env: Env)
    requires e.Selected?
    ensures At(Dispatch(w, e, st, env), e.seat, e.ty) ==
            if At(w, e.seat, e.ty).None? then None else Some(Named(w.seats[e.seat], e.maybeOffer, st))
  {
  }

  /** What a named offer that is not ignored starts with. */
  lemma NamedIs(ms: seq<Mime>, v: SeatView, o: OfferId, st: Settings)
    requires o in v.offers && v.offers[o] == AdvertiseAll(ms, st) && Named(v, Some(o), st).ReadMimes?
    ensures Named(v, Some(o), st) == ReadMimes(o, ms, Elements(ms), NameBytes(Elements(ms)), map[])
    ensures !st.Exceeds(NameBytes(Elements(ms))) && Welcome(ms, st)
  {
    AccountingIsExact(ms, st);
    IgnoredExactly(ms, st);
  }

  lemma FreshlyNamedOk(h: History, n: SeatName, ty: SelectionType, o: OfferId, ms: seq<Mime>, out: seq<Request>,
                       faults: set<(OfferId, Mime)>, st: Settings, written: Content)
    requires Origin(h, n, ty) == Some(o) && Resolved(h, o) && Advertised(h, o) == ms
    requires !st.Exceeds(NameBytes(Elements(ms))) && Welcome(ms, st)
    ensures SelectionOk(h, out, faults, n, ty, ReadMimes(o, ms, Elements(ms), NameBytes(Elements(ms)), map[]),
                        st, written)
  {
  }

  lemma NamingMakesOrigin(h: History, n: SeatName, ty: SelectionType, o: OfferId, h1: History)
    requires FreshHistory(h) && Known(h, n) && o in Unresolved(h, n) && h1 == Then(h, Selected(n, ty, Some(o)))
    ensures Origin(h1, n, ty) == Some(o) && Resolved(h1, o) && Advertised(h1, o) == Advertised(h, o)
  {
    SelectionResolves(h, n, ty, o);
  }

  lemma NamedOk(h: History, v: SeatView, e: Event, out: seq<Request>, faults: set<(OfferId, Mime)>, st: Settings,
                written: Content)
    requires FreshHistory(h) && e.Selected? && Known(h, e.seat) && OffersOk(h, e.seat, v.offers, st)
    requires Named(v, e.maybeOffer, st).ReadMimes?
    ensures e.maybeOffer.Some? && e.maybeOffer.value in Unresolved(h, e.seat)
    ensures SelectionOk(Then(h, e), out, faults, e.seat, e.ty, Named(v, e.maybeOffer, st), st, written)
    ensures Named(v, e.maybeOffer, st).unique == Elements(Named(v, e.maybeOffer, st).ordered)
  {
    var o := e.maybeOffer.value;
    assert e == Selected(e.seat, e.ty, Some(o));
    NamedIs(Advertised(h, o), v, o, st);
    NamingMakesOrigin(h, e.seat, e.ty, o, Then(h, e));
    FreshlyNamedOk(Then(h, e), e.seat, e.ty, o, Advertised(h, o), out, faults, st, written);
  }

  lemma SelectedStarts(w: World, e: Event, st: Settings, env: Env, written: Content)
    requires FreshHistory(w.history) && e.Selected? && SeatOk(w, e.seat, st)
    requires var w' := Dispatch(w, e, st, env); Active(At(w', e.seat, e.ty))
    ensures Started(w, Dispatch(w, e, st, env), e, e.seat, e.ty, st, written)
  {
    var w' := Dispatch(w, e, st, env);
    SelectedState(w, e, st, env);
    NamedOk(w.history, w.seats[e.seat], e, w'.out, w'.faults, st, written);
  }

  lemma LedgersGrow(w: World, e: Event, st: Settings, env: Env)
    ensures var w' := Dispatch(w, e, st, env);
            && w'.history == Then(w.history, e) && w.out <= w'.out
            && w'.faults == w.faults && w'.published == w.published
  {
  }

  lemma DispatchAdvances(w: World, w': World, e: Event, st: Settings, env: Env, written: Content)
    requires FreshHistory(w.history) && SeatsOk(w, st) && w' == Dispatch(w, e, st, env)
    ensures Advances(w, w', e, st, written)
  {
    LedgersGrow(w, e, st, env);
    forall n, ty | Active(At(w', n, ty))
      ensures Kept(w, w', n, ty) || Started(w, w', e, n, ty, st, written)
    {
      if !e.Selected? {
        assert SeatOk(w, n, st);
        MostEventsKeep(w, e, st, env, n, ty);
      } else if !Selects(e, n, ty) {
        SelectedKeepsOthers(w, e, st, env, n, ty);
      } else {
        SelectedStarts(w, e, st, env, written);
      }
    }
  }

  lemma DispatchOk(w: World, e: Event, st: Settings, env: Env, written: Content)
    requires WorldOk(w, st, written) && FreshOffer(w.history, e)
    ensures WorldOk(Dispatch(w, e, st, env), st, written)
  {
    var w' := Dispatch(w, e, st, env);
    forall n ensures SeatOk(w', n, st) {
      assert SeatOk(w, n, st);
      DispatchKeepsSeatOk(w, e, n, st, env);
    }
    DispatchAdvances(w, w', e, st, env, written);
    AdvanceOk(w, w', e, st, written);
  }
}
