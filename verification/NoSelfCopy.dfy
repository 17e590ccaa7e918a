/** The proof that the client, talking to a compositor that follows the protocol, never publishes its
    own selection again. */
module NoSelfCopy {
  import opened Protocol
  import opened History
  import opened ClientSpec
  import opened ClientInvariant
  import opened Resolution
  import opened ClientTheorems
  import opened Wire
  import opened Sources
  import opened Asked
  import opened Budget
  import opened Compositor

  // ----- the histories under the moves of the compositor -----

  lemma FutureGrows(s: System, s': System, ev: seq<Event>)
    requires s'.client == s.client && s'.queue == s.queue + ev
    ensures Future(s') == Extend(Future(s), ev)
  {
    ExtendAppend(s.client.world.history, s.queue, ev);
  }

  lemma QuietEventsOk(h: History, sv: Server, ev: seq<Event>)
    requires StreamOk(h, sv) && forall e :: e in ev ==> Quiet(e)
    ensures StreamOk(Extend(h, ev), sv)
  {
    QuietExtend(h, ev);
  }

  lemma AnnounceEventsOk(h: History, sv: Server, n: SeatName)
    requires StreamOk(h, sv) && n !in sv.seats
    ensures StreamOk(Then(h, SeatAdded(n, true)), sv.(seats := sv.seats + {n}))
  {
    var h', sv' := Then(h, SeatAdded(n, true)), sv.(seats := sv.seats + {n});
    forall m, ty ensures LastSelection(h', m, ty) == Shown(sv', m, ty) {
      if m == n { UnknownShowsNothing(h, n, ty); }
    }
  }

  lemma {:induction false} UnknownShowsNothing(h: History, n: SeatName, ty: SelectionType)
    requires !Known(h, n)
    ensures LastSelection(h, n, ty) == None
  {
    if h.Then? && !Known(h.past, n) { UnknownShowsNothing(h.past, n, ty); }
  }

  lemma RemoveGlobalEventsOk(h: History, sv: Server, n: SeatName, manager: bool)
    requires StreamOk(h, sv) && n !in sv.seats
    ensures StreamOk(Then(h, GlobalRemoved(n, manager)), sv)
  {
    var h' := Then(h, GlobalRemoved(n, manager));
    forall m, ty ensures LastSelection(h', m, ty) == Shown(sv, m, ty) {
      assert LastSelection(h, m, ty) == Shown(sv, m, ty);
      if m == n { UnknownShowsNothing(h, n, ty); }
    }
  }

  lemma WithdrawEventsOk(h: History, sv: Server, n: SeatName, e: Event)
    requires StreamOk(h, sv) && e in {Finished(n), GlobalRemoved(n, false)}
    ensures StreamOk(Then(h, e), sv.(seats := sv.seats - {n},
                                     current := sv.current - {Slot(n, Regular), Slot(n, Primary)}))
  {
    var h' := Then(h, e);
    var sv' := sv.(seats := sv.seats - {n}, current := sv.current - {Slot(n, Regular), Slot(n, Primary)});
    forall m, ty ensures LastSelection(h', m, ty) == Shown(sv', m, ty) {
      assert LastSelection(h, m, ty) == Shown(sv, m, ty);
      assert Slot(m, ty) in {Slot(n, Regular), Slot(n, Primary)} <==> m == n by {
        assert ty == Regular || ty == Primary;
      }
    }
  }

  lemma SelectEventsOk(h: History, sv: Server, n: SeatName, ty: SelectionType, maybe: Option<OfferId>)
    requires StreamOk(h, sv) && n in sv.seats
    requires maybe.Some? ==> maybe.value in sv.home && sv.home[maybe.value] == Slot(n, ty)
    ensures StreamOk(Then(h, Selected(n, ty, maybe)), sv.(current := sv.current[Slot(n, ty) := maybe]))
  {
    var h', sv' := Then(h, Selected(n, ty, maybe)), sv.(current := sv.current[Slot(n, ty) := maybe]);
    forall m, tz ensures LastSelection(h', m, tz) == Shown(sv', m, tz) {
      assert LastSelection(h, m, tz) == Shown(sv, m, tz);
    }
  }

  lemma OfferEventsOk(h: History, sv: Server, n: SeatName, o: OfferId, slot: Slot, who: Provenance)
    requires StreamOk(h, sv) && o !in sv.provenance
    ensures StreamOk(Then(h, DataOffer(n, o)), sv.(home := sv.home[o := slot], provenance := sv.provenance[o := who]))
  {
    HomeGrows(h, sv.home, o, slot);
    var sv' := sv.(home := sv.home[o := slot], provenance := sv.provenance[o := who]);
    forall m, tz ensures LastSelection(Then(h, DataOffer(n, o)), m, tz) == Shown(sv', m, tz) {
      assert LastSelection(h, m, tz) == Shown(sv, m, tz);
    }
  }

  /** The history once the events of a replacement have been dispatched, and what is announced then. */
  function Replaced(h: History, sv: Server, n: SeatName, ty: SelectionType, o: OfferId, ms: seq<Mime>): History {
    Then(Extend(Then(Extend(h, Cancellation(sv, Slot(n, ty))), DataOffer(n, o)), OfferedTypes(n, o, ms)),
         Selected(n, ty, Some(o)))
  }

  lemma ReplacedOk(h: History, sv: Server, n: SeatName, ty: SelectionType, o: OfferId, who: Provenance, ms: seq<Mime>)
    requires StreamOk(h, sv) && n in sv.seats && o !in sv.provenance
    ensures StreamOk(Replaced(h, sv, n, ty, o, ms),
                     sv.(home := sv.home[o := Slot(n, ty)], provenance := sv.provenance[o := who],
                         current := sv.current[Slot(n, ty) := Some(o)]))
  {
    var slot := Slot(n, ty);
    QuietEventsOk(h, sv, Cancellation(sv, slot));
    var h1 := Extend(h, Cancellation(sv, slot));
    OfferEventsOk(h1, sv, n, o, slot, who);
    var sv1 := sv.(home := sv.home[o := slot], provenance := sv.provenance[o := who]);
    QuietEventsOk(Then(h1, DataOffer(n, o)), sv1, OfferedTypes(n, o, ms));
    SelectEventsOk(Extend(Then(h1, DataOffer(n, o)), OfferedTypes(n, o, ms)), sv1, n, ty, Some(o));
  }

  lemma ReplacedFuture(s: System, n: SeatName, ty: SelectionType, o: OfferId, who: Provenance, ms: seq<Mime>)
    ensures Future(Replace(s, n, ty, o, who, ms)) == Replaced(Future(s), s.server, n, ty, o, ms)
  {
    var h := Future(s);
    var a, b, c, e := Cancellation(s.server, Slot(n, ty)), [DataOffer(n, o)], OfferedTypes(n, o, ms),
        Selected(n, ty, Some(o));
    FutureGrows(s, Replace(s, n, ty, o, who, ms), a + b + c + [e]);
    ExtendOne(h, a + b + c, e);
    ExtendAppend(h, a + b, c);
    ExtendOne(h, a, DataOffer(n, o));
  }

  lemma ReplaceEventsOk(s: System, n: SeatName, ty: SelectionType, o: OfferId, who: Provenance, ms: seq<Mime>)
    requires StreamOk(Future(s), s.server) && n in s.server.seats && o !in s.server.provenance
    ensures StreamOk(Future(Replace(s, n, ty, o, who, ms)), Replace(s, n, ty, o, who, ms).server)
  {
    ReplacedOk(Future(s), s.server, n, ty, o, who, ms);
    ReplacedFuture(s, n, ty, o, who, ms);
  }

  lemma ClearEventsOk(s: System, n: SeatName, ty: SelectionType, st: Settings)
    requires StreamOk(Future(s), s.server) && n in s.server.seats
    ensures StreamOk(Future(Do(s, Clear(n, ty), st)), Do(s, Clear(n, ty), st).server)
  {
    var a, d := Cancellation(s.server, Slot(n, ty)), Selected(n, ty, None);
    QuietEventsOk(Future(s), s.server, a);
    SelectEventsOk(Extend(Future(s), a), s.server, n, ty, None);
    var s' := Do(s, Clear(n, ty), st);
    assert s'.queue == s.queue + (a + [d]);
    FutureGrows(s, s', a + [d]);
    ExtendOne(Future(s), a, d);
  }

  lemma OneMoreEvent(s: System, s': System, e: Event)
    requires s'.client == s.client && s'.queue == s.queue + [e]
    ensures Future(s') == Then(Future(s), e)
  {
    FutureGrows(s, s', [e]);
    assert [e][..0] == [];
  }

  /** How far the compositor is with our requests does not matter to its view of the histories. */
  lemma SameView(h: History, sv: Server, sv': Server)
    requires StreamOk(h, sv)
    requires sv'.seats == sv.seats && sv'.current == sv.current && sv'.home == sv.home &&
             sv'.provenance == sv.provenance
    ensures StreamOk(h, sv')
  {
    assert forall n, ty :: Shown(sv', n, ty) == Shown(sv, n, ty);
  }

  lemma ServedQuietly(s: System, s': System, ev: seq<Event>)
    requires StreamOk(Future(s), s.server) && s'.client == s.client && s'.queue == s.queue + ev
    requires forall e :: e in ev ==> Quiet(e)
    requires var sv, sv' := s.server, s'.server;
             && sv'.seats == sv.seats && sv'.current == sv.current
             && sv'.home == sv.home && sv'.provenance == sv.provenance
    ensures StreamOk(Future(s'), s'.server)
  {
    FutureGrows(s, s', ev);
    QuietEventsOk(Future(s), s.server, ev);
    SameView(Future(s'), s.server, s'.server);
  }

  lemma ServedQuietEvents(s: System, o: OfferId, ms: seq<Mime>, forward: bool, fault: SendFault)
    requires s.server.cursor < |s.client.world.out|
    requires var r := s.client.world.out[s.server.cursor]; !(r.SetSelection? && r.seat in s.server.seats)
    ensures var s', sv := ServeNext(s, o, ms, forward, fault), s.server;
            && s.queue <= s'.queue && (forall e :: e in s'.queue[|s.queue|..] ==> Quiet(e))
            && s'.client == s.client && s'.server.seats == sv.seats && s'.server.current == sv.current
            && s'.server.home == sv.home && s'.server.provenance == sv.provenance
  {
  }

  lemma ServedSelection(s: System, o: OfferId, ms: seq<Mime>, forward: bool, fault: SendFault)
    requires StreamOk(Future(s), s.server) && s.server.cursor < |s.client.world.out| && o !in s.server.provenance
    requires var r := s.client.world.out[s.server.cursor]; r.SetSelection? && r.seat in s.server.seats
    ensures var s' := ServeNext(s, o, ms, forward, fault); StreamOk(Future(s'), s'.server)
  {
    var r := s.client.world.out[s.server.cursor];
    var s1 := s.(server := s.server.(cursor := s.server.cursor + 1));
    assert ServeNext(s, o, ms, forward, fault) == Replace(s1, r.seat, r.ty, o, Own(r.source), ms);
    SameView(Future(s), s.server, s1.server);
    ReplaceEventsOk(s1, r.seat, r.ty, o, Own(r.source), ms);
  }

  lemma ServeEventsOk(s: System, m: Move, st: Settings, written: Content)
    requires StreamOk(Future(s), s.server) && m.Serve? && CanMove(s, m, written)
    ensures StreamOk(Future(Do(s, m, st)), Do(s, m, st).server)
  {
    var r := s.client.world.out[s.server.cursor];
    if r.SetSelection? && r.seat in s.server.seats {
      ServedSelection(s, m.offer, m.types, m.forward, m.fault);
    } else {
      ServedQuietEvents(s, m.offer, m.types, m.forward, m.fault);
      var s' := ServeNext(s, m.offer, m.types, m.forward, m.fault);
      ServedQuietly(s, s', s'.queue[|s.queue|..]);
    }
  }

  /** Every move of the compositor keeps its view of the histories right. */
  lemma MoveEventsOk(s: System, m: Move, st: Settings, written: Content)
    requires StreamOk(Future(s), s.server) && !m.ClientStep? && CanMove(s, m, written)
    ensures StreamOk(Future(Do(s, m, st)), Do(s, m, st).server)
  {
    match m
    case Announce(n, bound) =>
      if bound {
        AnnounceEventsOk(Future(s), s.server, n);
        OneMoreEvent(s, Do(s, m, st), SeatAdded(n, true));
      } else {
        ServedQuietly(s, Do(s, m, st), [SeatAdded(n, false)]);
      }
    case RemoveGlobal(n, manager) =>
      RemoveGlobalEventsOk(Future(s), s.server, n, manager);
      OneMoreEvent(s, Do(s, m, st), GlobalRemoved(n, manager));
    case Withdraw(n, finished) =>
      var e := if finished then Finished(n) else GlobalRemoved(n, false);
      WithdrawEventsOk(Future(s), s.server, n, e);
      OneMoreEvent(s, Do(s, m, st), e);
    case Copy(n, ty, o, ms) => ReplaceEventsOk(s, n, ty, o, Foreign, ms);
    case Clear(n, ty) => ClearEventsOk(s, n, ty, st);
    case Serve(_, _, _, _) => ServeEventsOk(s, m, st, written);
    case Paste(src, x, fd, fault) => ServedQuietly(s, Do(s, m, st), [Send(src, x, fd, fault)]);
  }

  // ----- own offers -----

  lemma SetSelectionIsPublished(w: World, n: SeatName, ty: SelectionType, src: SourceId)
    requires SourcesProper(w) && SetSelection(n, ty, src) in w.out
    ensures src < |w.published| && w.published[src].seat == n && w.published[src].ty == ty
  {
    var r := SetSelection(n, ty, src);
    assert SourceOk(w, src);
    FilterHas(w.out, OnSource(src), r);
    if src < |w.published| {
      var p := w.published[src];
      assert r in Creation(p) + if Held(w, src) then [] else [DestroySource(src)];
      assert r !in OfferTypes(p.source, p.offered);
    }
  }

  lemma MoveOwnOffersOk(s: System, m: Move, st: Settings, written: Content)
    requires OwnOffersOk(s.client.world, s.server) && SourcesProper(s.client.world)
    requires !m.ClientStep? && CanMove(s, m, written)
    ensures OwnOffersOk(Do(s, m, st).client.world, Do(s, m, st).server)
  {
    if m.Copy? {
      ReplaceOwnOffersOk(s, m.seat, m.ty, m.offer, Foreign, m.types);
    } else if m.Serve? {
      var r := s.client.world.out[s.server.cursor];
      if r.SetSelection? && r.seat in s.server.seats {
        SetSelectionIsPublished(s.client.world, r.seat, r.ty, r.source);
        var s1 := s.(server := s.server.(cursor := s.server.cursor + 1));
        ReplaceOwnOffersOk(s1, r.seat, r.ty, m.offer, Own(r.source), m.types);
      } else {
        ServedQuietEvents(s, m.offer, m.types, m.forward, m.fault);
      }
    }
  }

  lemma ReplaceOwnOffersOk(s: System, n: SeatName, ty: SelectionType, o: OfferId, who: Provenance, ms: seq<Mime>)
    requires var ps := s.client.world.published;
             && OwnOffersOk(s.client.world, s.server) && o !in s.server.provenance
             && (who.Own? ==> who.source < |ps| && ps[who.source].seat == n && ps[who.source].ty == ty)
    ensures OwnOffersOk(s.client.world, Replace(s, n, ty, o, who, ms).server)
  {
  }

  // ----- the answer to the roundtrip -----

  lemma AskedByGrows(s: System, s': System, o: OfferId)
    requires s.client.world.out <= s'.client.world.out && s.server.cursor <= s'.server.cursor
    requires AskedBy(s, o)
    ensures AskedBy(s', o)
  {
    var c := Min(s.server.cursor, |s.client.world.out|);
    var c' := Min(s'.server.cursor, |s'.client.world.out|);
    assert s.client.world.out[..c] <= s'.client.world.out[..c'];
  }

  /** What a move of the compositor adds to the queue and to the requests served. */
  ghost predicate Adds(s: System, m: Move, s': System)
    requires m.Serve? ==> s.server.cursor < |s.client.world.out|
  {
    && s'.client == s.client && s.queue <= s'.queue
    && s'.server.cursor == s.server.cursor + (if m.Serve? then 1 else 0)
    && s'.server.cursor <= |s.client.world.out|
    && (Done in s'.queue[|s.queue|..] ==>
          m.Serve? && s.client.world.out[s.server.cursor] == Sync && s'.queue == s.queue + [Done])
    && (m.Serve? && s.client.world.out[s.server.cursor] == Sync ==> s'.queue == s.queue + [Done])
  }

  lemma ServeAdds(s: System, m: Move, st: Settings, written: Content)
    requires m.Serve? && CanMove(s, m, written) && RequestsOk(s)
    ensures Adds(s, m, Do(s, m, st))
  {
  }

  lemma MoveAdds(s: System, m: Move, st: Settings, written: Content)
    requires !m.ClientStep? && CanMove(s, m, written) && RequestsOk(s)
    ensures Adds(s, m, Do(s, m, st))
  {
    if m.Serve? {
      ServeAdds(s, m, st, written);
    }
  }

  /** A receive request of an own offer is handed on as a send request to our source. */
  lemma MoveForwards(s: System, m: Move, st: Settings, written: Content, x: OfferId)
    requires !m.ClientStep? && CanMove(s, m, written)
    requires x in Do(s, m, st).server.forwarded && x !in s.server.forwarded
    ensures m.Serve? && s.server.cursor < |s.client.world.out|
    ensures var r := s.client.world.out[s.server.cursor];
            && r.Receive? && r.offer == x && x in s.server.provenance && s.server.provenance[x].Own?
            && !m.fault.MetadataFault?
            && Do(s, m, st).queue == s.queue + [Send(s.server.provenance[x].source, r.mime, r.fd, m.fault)]
  {
  }

  lemma MoveKeepsForwarded(s: System, m: Move, st: Settings, written: Content)
    requires !m.ClientStep? && CanMove(s, m, written)
    ensures s.server.forwarded <= Do(s, m, st).server.forwarded
    ensures s.server.provenance.Keys <= Do(s, m, st).server.provenance.Keys
    ensures forall o :: o in s.server.provenance ==> Do(s, m, st).server.provenance[o] == s.server.provenance[o]
  {
  }

  lemma MoveRequestsOk(s: System, m: Move, st: Settings, written: Content)
    requires RequestsOk(s) && !m.ClientStep? && CanMove(s, m, written)
    ensures RequestsOk(Do(s, m, st))
  {
    var s' := Do(s, m, st);
    MoveAdds(s, m, st, written);
    forall o | o in s'.server.forwarded ensures AskedBy(s', o) {
      if o in s.server.forwarded {
        AskedByGrows(s, s', o);
      } else {
        MoveForwards(s, m, st, written, o);
        var r := s.client.world.out[s.server.cursor];
        assert r in s.client.world.out[..s.server.cursor + 1];
      }
    }
  }

  lemma MoveAnswerOk(s: System, m: Move, st: Settings, written: Content)
    requires AnswerOk(s) && RequestsOk(s) && !m.ClientStep? && CanMove(s, m, written)
    ensures AnswerOk(Do(s, m, st))
  {
    var s' := Do(s, m, st);
    MoveAdds(s, m, st, written);
    var out := s.client.world.out;
    var extra := s'.queue[|s.queue|..];
    assert s'.queue == s.queue + extra;
    if m.Serve? {
      assert out[s.server.cursor..] == [out[s.server.cursor]] + out[s.server.cursor + 1..];
    }
    if s.client.phase.InRoundtrip? {
      if s.server.cursor < |out| {
        if m.Serve? && s.server.cursor == |out| - 1 {
          LastIsTheAnswer(s.queue);
        } else if m.Serve? {
          assert out[s.server.cursor..|out| - 1] == [out[s.server.cursor]] + out[s.server.cursor + 1..|out| - 1];
        }
      } else {
        var k: nat :| AnswerAt(s.queue, k);
        AnswerStays(s.queue, extra, k);
      }
    }
  }

  lemma LastIsTheAnswer(q: seq<Event>)
    requires Done !in q
    ensures AnswerAt(q + [Done], |q|)
  {
  }

  lemma AnswerStays(q: seq<Event>, extra: seq<Event>, k: nat)
    requires AnswerAt(q, k) && Done !in extra
    ensures AnswerAt(q + extra, k)
  {
  }

  lemma SentInGrows(q: seq<Event>, q': seq<Event>, src: SourceId, fds: map<Fd, bool>)
    requires SentIn(q, src, fds) && q <= q'
    ensures SentIn(q', src, fds)
  {
    var e :| e in q && e.Send? && e.source == src && e.fd in fds && !e.fault.MetadataFault?;
    assert e in q';
  }

  lemma TouchedInGrows(q: seq<Event>, q': seq<Event>, n: SeatName, ty: SelectionType)
    requires TouchedIn(q, n, ty) && q <= q'
    ensures TouchedIn(q', n, ty)
  {
    var e :| e in q && Touches(e, n, ty);
    assert e in q';
  }

  /** When the answer is given, an own offer that is still the current selection was handed on. */
  lemma AnsweredAfterHandingOn(s: System, a: Awaiting, st: Settings, written: Content)
    requires SystemOk(s, st, written) && s.client.phase.InRoundtrip? && a in s.client.phase.awaiting
    requires s.server.cursor == |s.client.world.out| - 1 && HandedOn(s)
    requires var r := At(s.client.world, a.seat, a.ty).value;
             r.offer in s.server.provenance && s.server.provenance[r.offer].Own? && !TouchedIn(s.queue, a.seat, a.ty)
    ensures At(s.client.world, a.seat, a.ty).value.offer in s.server.forwarded
  {
    var w, n, ty := s.client.world, a.seat, a.ty;
    var r := At(w, n, ty).value;
    assert Fits(w, a, st, written);
    assert SelectionOk(w.history, w.out, w.faults, n, ty, r, st, written);
    UntouchedHistory(w.history, s.queue, n, ty);
    assert Shown(s.server, n, ty) == Some(Some(r.offer));
    LastIsHome(Future(s), s.server.home, n, ty);
    assert IsOwnCurrent(s.server, r.offer);
    assert AskedBy(s, r.offer) by {
      assert PipeOk(a.pipes[0], r.offer, r.ordered, w.out, FaultyOf(w.faults, r.offer), st, written);
      var req := Receive(r.offer, a.pipes[0].mime, a.pipes[0].fd);
      assert req in w.out && w.out == w.out[..|w.out| - 1] + [Sync];
      assert req in w.out[..|w.out| - 1];
    }
  }

  lemma MoveFoundOut(s: System, m: Move, a: Awaiting, st: Settings, written: Content)
    requires SystemOk(s, st, written) && !m.ClientStep? && CanMove(s, m, written)
    requires s.client.phase.InRoundtrip? && a in s.client.phase.awaiting
    ensures FoundOut(Do(s, m, st), a)
  {
    var s', w := Do(s, m, st), s.client.world;
    assert FoundOut(s, a) && Fits(w, a, st, written);
    var r := At(w, a.seat, a.ty).value;
    assert SelectionOk(w.history, w.out, w.faults, a.seat, a.ty, r, st, written);
    HomeParts(w.history, s.queue, s.server.home);
    LastIsHome(w.history, s.server.home, a.seat, a.ty);
    MoveAdds(s, m, st, written);
    MoveKeepsForwarded(s, m, st, written);
    if s.server.provenance[r.offer].Own? {
      var src := s.server.provenance[r.offer].source;
      if Done !in s'.queue && r.offer in s'.server.forwarded {
        if r.offer in s.server.forwarded {
          SentInGrows(s.queue, s'.queue, src, r.fds);
        } else {
          MoveForwards(s, m, st, written, r.offer);
          var req := w.out[s.server.cursor];
          assert ReadAt(w, a.seat, a.ty, r.offer) && Remembered(w, req);
          assert s'.queue[|s.queue|] in s'.queue;
        }
      }
      forall k: nat | AnswerAt(s'.queue, k)
        ensures TouchedIn(s'.queue[..k], a.seat, a.ty) || SentIn(s'.queue[..k], src, r.fds)
      {
        AnswerFoundOut(s, m, a, k, st, written);
      }
    }
  }

  lemma AnswerStaysPut(q: seq<Event>, q': seq<Event>, k: nat)
    requires q <= q' && k < |q| && AnswerAt(q', k)
    ensures AnswerAt(q, k) && q'[..k] == q[..k]
  {
    forall j | 0 <= j < |q| && q[j] == Done ensures j == k {
      assert q'[j] == Done;
    }
  }

  lemma AnswerFoundOut(s: System, m: Move, a: Awaiting, k: nat, st: Settings, written: Content)
    requires SystemOk(s, st, written) && !m.ClientStep? && CanMove(s, m, written)
    requires s.client.phase.InRoundtrip? && a in s.client.phase.awaiting && IsReading(s.client.world, a.seat, a.ty)
    requires var r := At(s.client.world, a.seat, a.ty).value;
             r.offer in s.server.provenance && s.server.provenance[r.offer].Own?
    requires AnswerAt(Do(s, m, st).queue, k)
    ensures var r := At(s.client.world, a.seat, a.ty).value;
            var q := Do(s, m, st).queue[..k];
            TouchedIn(q, a.seat, a.ty) || SentIn(q, s.server.provenance[r.offer].source, r.fds)
  {
    assert s.queue <= Do(s, m, st).queue by { MoveAdds(s, m, st, written); }
    if k < |s.queue| {
      AnswerStaysPut(s.queue, Do(s, m, st).queue, k);
      assert FoundOut(s, a);
    } else {
      NewAnswerFoundOut(s, m, a, k, st, written);
    }
  }

  /** An answer that this move gives is the last event, and comes when all requests have been served. */
  lemma NewAnswer(s: System, m: Move, k: nat, st: Settings, written: Content)
    requires RequestsOk(s) && AnswerOk(s) && !m.ClientStep? && CanMove(s, m, written) && s.client.phase.InRoundtrip?
    requires AnswerAt(Do(s, m, st).queue, k) && k >= |s.queue|
    ensures Do(s, m, st).queue[..k] == s.queue && Done !in s.queue
    ensures s.server.cursor == |s.client.world.out| - 1 && HandedOn(s)
  {
    var s' := Do(s, m, st);
    MoveAdds(s, m, st, written);
    assert s'.queue[k] == s'.queue[|s.queue|..][k - |s.queue|];
    assert Done in s'.queue[|s.queue|..];
    forall j | 0 <= j < |s.queue| ensures s.queue[j] != Done {
      assert s'.queue[j] == s.queue[j];
    }
  }

  lemma NewAnswerFoundOut(s: System, m: Move, a: Awaiting, k: nat, st: Settings, written: Content)
    requires SystemOk(s, st, written) && !m.ClientStep? && CanMove(s, m, written)
    requires s.client.phase.InRoundtrip? && a in s.client.phase.awaiting && IsReading(s.client.world, a.seat, a.ty)
    requires var r := At(s.client.world, a.seat, a.ty).value;
             r.offer in s.server.provenance && s.server.provenance[r.offer].Own?
    requires AnswerAt(Do(s, m, st).queue, k) && k >= |s.queue|
    ensures var r := At(s.client.world, a.seat, a.ty).value;
            var q := Do(s, m, st).queue[..k];
            TouchedIn(q, a.seat, a.ty) || SentIn(q, s.server.provenance[r.offer].source, r.fds)
  {
    NewAnswer(s, m, k, st, written);
    if !TouchedIn(s.queue, a.seat, a.ty) {
      AnsweredAfterHandingOn(s, a, st, written);
      assert FoundOut(s, a);
    }
  }

  // ----- foreign offers -----

  lemma {:induction false} NewOfferUncounted(h: History, home: map<OfferId, Slot>, n: SeatName, ty: SelectionType,
                                             foreign: set<OfferId>, o: OfferId)
    requires SelectionsHome(h, home) && o !in home
    ensures Selections(h, n, ty, foreign + {o}) == Selections(h, n, ty, foreign)
  {
    if h.Then? { NewOfferUncounted(h.past, home, n, ty, foreign, o); }
  }

  /** The balance of a selection, counting the offers of other clients. */
  function Credit(s: System, n: SeatName, ty: SelectionType): int {
    Balance(s.client.world, n, ty, ForeignOffers(s.server))
  }

  lemma ForeignOffersAfter(s: System, m: Move, st: Settings, written: Content)
    requires !m.ClientStep? && CanMove(s, m, written)
    ensures ForeignOffers(Do(s, m, st).server) == ForeignOffers(s.server) + if m.Copy? then {m.offer} else {}
  {
    var sv, sv' := s.server, Do(s, m, st).server;
    if m.Copy? {
      assert sv'.provenance == sv.provenance[m.offer := Foreign];
    } else {
      assert || sv'.provenance == sv.provenance
             || exists o: OfferId, src: SourceId ::
                  o !in sv.provenance && sv'.provenance == sv.provenance[o := Own(src)];
    }
  }

  lemma CopyKeepsCredit(s: System, m: Move, n: SeatName, ty: SelectionType, st: Settings, written: Content)
    requires SystemOk(s, st, written) && m.Copy? && CanMove(s, m, written)
    requires ForeignOffers(Do(s, m, st).server) == ForeignOffers(s.server) + {m.offer}
    ensures Credit(Do(s, m, st), n, ty) == Credit(s, n, ty)
  {
    var w := s.client.world;
    HomeParts(w.history, s.queue, s.server.home);
    NewOfferUncounted(w.history, s.server.home, n, ty, ForeignOffers(s.server), m.offer);
    if IsReading(w, n, ty) {
      assert SelectionOk(w.history, w.out, w.faults, n, ty, At(w, n, ty).value, st, written);
      LastIsHome(w.history, s.server.home, n, ty);
    }
  }

  lemma MoveKeepsCredit(s: System, m: Move, n: SeatName, ty: SelectionType, st: Settings, written: Content)
    requires SystemOk(s, st, written) && !m.ClientStep? && CanMove(s, m, written)
    ensures Credit(Do(s, m, st), n, ty) == Credit(s, n, ty)
    ensures ForeignOffers(s.server) <= ForeignOffers(Do(s, m, st).server)
  {
    ForeignOffersAfter(s, m, st, written);
    if m.Copy? {
      CopyKeepsCredit(s, m, n, ty, st, written);
    } else {
      MoveAdds(s, m, st, written);
      assert ForeignOffers(Do(s, m, st).server) == ForeignOffers(s.server);
    }
  }

  lemma MoveOnlyForeign(s: System, m: Move, st: Settings, written: Content)
    requires SystemOk(s, st, written) && !m.ClientStep? && CanMove(s, m, written)
    ensures OnlyForeign(Do(s, m, st))
  {
    var s' := Do(s, m, st);
    MoveAdds(s, m, st, written);
    forall n, ty
      ensures ReadsForeign(s'.client.world, n, ty, ForeignOffers(s'.server)) &&
              PaidFor(s'.client.world, n, ty, ForeignOffers(s'.server))
    {
      MoveKeepsCredit(s, m, n, ty, st, written);
      assert ReadsForeign(s.client.world, n, ty, ForeignOffers(s.server)) &&
             PaidFor(s.client.world, n, ty, ForeignOffers(s.server));
    }
  }

  /** Every move of the compositor keeps the invariant. */
  lemma MoveOk(s: System, m: Move, st: Settings, written: Content)
    requires SystemOk(s, st, written) && !m.ClientStep? && CanMove(s, m, written)
    ensures SystemOk(Do(s, m, st), st, written)
  {
    MoveEventsOk(s, m, st, written);
    MoveOwnOffersOk(s, m, st, written);
    MoveRequestsOk(s, m, st, written);
    MoveAnswerOk(s, m, st, written);
    MoveOnlyForeign(s, m, st, written);
    MoveAdds(s, m, st, written);
    if s.client.phase.InRoundtrip? {
      forall a | a in s.client.phase.awaiting ensures FoundOut(Do(s, m, st), a) {
        MoveFoundOut(s, m, a, st, written);
      }
    }
  }
}
