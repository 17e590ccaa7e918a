/** The client together with a compositor. Requests and events travel in order: the compositor serves
    the requests one by one, and answers a roundtrip only after it has handed on the earlier receive
    requests. The client never publishes its own selection again. */
module Compositor {
  import opened Protocol
  import opened History
  import opened ClientSpec
  import opened ClientInvariant
  import opened Resolution
  import opened ClientRuns
  import opened ClientTheorems
  import opened Wire
  import opened Sources
  import opened Asked
  import opened Budget

  /** Who stands behind an offer: one of our own sources, or another client. */
  datatype Provenance = Own(source: SourceId) | Foreign

  datatype Server = Server(
    cursor: nat,                          // how many of our requests were served
    seats: set<SeatName>,
    current: map<Slot, Option<OfferId>>,  // what each selection was last announced to be
    home: map<OfferId, Slot>,             // the selection an offer was made for
    provenance: map<OfferId, Provenance>,
    forwarded: set<OfferId>               // own offers of which a receive request reached our source
  )

  /** `queue` holds the events that were sent but not dispatched yet. */
  datatype System = System(client: Client, server: Server, queue: seq<Event>)

  datatype Move =
    | Announce(seat: SeatName, bound: bool)  // the client may fail to bind the seat
    | RemoveGlobal(name: SeatName, manager: bool)  // of anything but a seat
    | Withdraw(seat: SeatName, finished: bool)
    | Copy(seat: SeatName, ty: SelectionType, offer: OfferId, types: seq<Mime>)
    | Clear(seat: SeatName, ty: SelectionType)
    | Serve(offer: OfferId, types: seq<Mime>, forward: bool, fault: SendFault)
    | Paste(source: SourceId, mime: Mime, fd: Fd, fault: SendFault)
    | ClientStep(action: Action)

  // ----- what the compositor does -----

  function OfferedTypes(n: SeatName, o: OfferId, ms: seq<Mime>): seq<Event> {
    seq(|ms|, i requires 0 <= i < |ms| => OfferedType(n, o, ms[i]))
  }

  /** The client whose source is replaced is told so. */
  function Cancellation(sv: Server, slot: Slot): seq<Event> {
    if slot in sv.current && sv.current[slot].Some? && sv.current[slot].value in sv.provenance
       && sv.provenance[sv.current[slot].value].Own?
    then [Cancelled(sv.provenance[sv.current[slot].value].source)] else []
  }

  /** A selection is replaced: `cancelled` and the new selection are sent at once. */
  function Replace(s: System, n: SeatName, ty: SelectionType, o: OfferId, who: Provenance, ms: seq<Mime>): System {
    var slot := Slot(n, ty);
    s.(queue := s.queue + (Cancellation(s.server, slot) + [DataOffer(n, o)] + OfferedTypes(n, o, ms)) +
       [Selected(n, ty, Some(o))],
       server := s.server.(current := s.server.current[slot := Some(o)],
                           home := s.server.home[o := slot],
                           provenance := s.server.provenance[o := who]))
  }

  function ServeNext(s: System, o: OfferId, ms: seq<Mime>, forward: bool, fault: SendFault): System
    requires s.server.cursor < |s.client.world.out|
  {
    var sv := s.server.(cursor := s.server.cursor + 1);
    var s1 := s.(server := sv);
    match s.client.world.out[s.server.cursor]
    case Receive(x, m, fd) =>
      if forward && x in sv.provenance && sv.provenance[x].Own? then
        s1.(queue := s.queue + [Send(sv.provenance[x].source, m, fd, fault)],
            server := if fault.MetadataFault? then sv else sv.(forwarded := sv.forwarded + {x}))
      else s1
    case Sync => s1.(queue := s.queue + [Done])
    case SetSelection(n, ty, src) => if n in sv.seats then Replace(s1, n, ty, o, Own(src), ms) else s1
    case _ => s1
  }

  /** Every own offer that is the current selection, and that we asked for data, was handed on to our
      source at least once. */
  ghost predicate HandedOn(s: System) {
    forall o :: IsOwnCurrent(s.server, o) && AskedBy(s, o) ==> o in s.server.forwarded
  }

  predicate IsOwnCurrent(sv: Server, o: OfferId) {
    && o in sv.provenance && sv.provenance[o].Own?
    && o in sv.home && sv.home[o] in sv.current && sv.current[sv.home[o]] == Some(o)
  }

  predicate AskedBy(s: System, o: OfferId) {
    exists r :: r in s.client.world.out[..Min(s.server.cursor, |s.client.world.out|)] && r.Receive? && r.offer == o
  }

  function Min(a: nat, b: nat): nat {
    if a < b then a else b
  }

  /** The source was announced as a selection, and so other clients may have an offer of it. */
  predicate WasAnnounced(sv: Server, src: SourceId) {
    exists o :: o in sv.provenance && sv.provenance[o] == Own(src)
  }

  /** What can happen. The compositor follows the protocol; offers are fresh; pipes carry what is
      written to them. */
  ghost predicate CanMove(s: System, m: Move, written: Content) {
    match m
    case Announce(n, _) => n !in s.server.seats
    case RemoveGlobal(n, _) => n !in s.server.seats
    case Withdraw(n, _) => n in s.server.seats
    case Copy(n, _, o, _) => n in s.server.seats && o !in s.server.provenance
    case Clear(n, _) => n in s.server.seats
    case Serve(o, _, _, _) =>
      && s.server.cursor < |s.client.world.out|
      && (s.client.world.out[s.server.cursor].Sync? ==> HandedOn(s))
      && (s.client.world.out[s.server.cursor].SetSelection? ==> o !in s.server.provenance)
    case Paste(src, _, _, _) => WasAnnounced(s.server, src)
    case ClientStep(Events(batch, env)) => s.client.phase.Idle? && EnvOk(env) && batch <= s.queue
    case ClientStep(RoundtripDone(batch, env)) =>
      s.client.phase.InRoundtrip? && EnvOk(env) && batch <= s.queue && Done in batch
    case ClientStep(PipeReady(n, ty, i, d)) =>
      s.client.phase.Idle? && CanRead(s.client.world, n, ty, i) && Genuine(s.client.world, n, ty, i, d, written)
  }

  function Do(s: System, m: Move, st: Settings): System {
    match m
    case Announce(n, bound) =>
      s.(queue := s.queue + [SeatAdded(n, bound)],
         server := if bound then s.server.(seats := s.server.seats + {n}) else s.server)
    case RemoveGlobal(n, manager) => s.(queue := s.queue + [GlobalRemoved(n, manager)])
    case Withdraw(n, finished) =>
      s.(queue := s.queue + [if finished then Finished(n) else GlobalRemoved(n, false)],
         server := s.server.(seats := s.server.seats - {n},
                             current := s.server.current - {Slot(n, Regular), Slot(n, Primary)}))
    case Copy(n, ty, o, ms) => Replace(s, n, ty, o, Foreign, ms)
    case Clear(n, ty) =>
      s.(queue := s.queue + Cancellation(s.server, Slot(n, ty)) + [Selected(n, ty, None)],
         server := s.server.(current := s.server.current[Slot(n, ty) := None]))
    case Serve(o, ms, forward, fault) =>
      if s.server.cursor < |s.client.world.out| then ServeNext(s, o, ms, forward, fault) else s
    case Paste(src, m, fd, fault) => s.(queue := s.queue + [Send(src, m, fd, fault)])
    case ClientStep(a) =>
      System(Apply(s.client, a, st), s.server,
             if a.PipeReady? || |a.batch| > |s.queue| then s.queue else s.queue[|a.batch|..])
  }

  const START := System(INITIAL, Server(0, {}, map[], map[], map[], {}), [])

  // ----- histories that grow -----

  lemma {:induction false} ExtendAppend(h: History, a: seq<Event>, b: seq<Event>)
    ensures Extend(h, a + b) == Extend(Extend(h, a), b)
  {
    if b == [] {
      assert a + b == a;
    } else {
      assert (a + b)[..|a + b| - 1] == a + b[..|b| - 1];
      ExtendAppend(h, a, b[..|b| - 1]);
    }
  }

  lemma ExtendOne(h: History, a: seq<Event>, e: Event)
    ensures Extend(h, a + [e]) == Then(Extend(h, a), e)
  {
    assert (a + [e])[..|a|] == a;
  }

  lemma {:induction false} FreshParts(h: History, q: seq<Event>)
    requires FreshHistory(Extend(h, q))
    ensures FreshHistory(h) && FreshOffers(h, q)
  {
    if q != [] { FreshParts(h, q[..|q| - 1]); }
  }

  lemma FreshPrefix(h: History, q: seq<Event>, batch: seq<Event>)
    requires FreshHistory(Extend(h, q)) && batch <= q
    ensures FreshOffers(h, batch)
  {
    assert q == batch + q[|batch|..];
    ExtendAppend(h, batch, q[|batch|..]);
    FreshParts(Extend(h, batch), q[|batch|..]);
    FreshParts(h, batch);
  }

  /** Events that leave all histories of seats, offers and selections as they are. */
  predicate Quiet(e: Event) {
    e.OfferedType? || e.Send? || e.Cancelled? || e.Done? || e == SeatAdded(e.seat, false)
  }

  /** The same seats, offers and selections. */
  ghost predicate SameFacts(h: History, h': History) {
    && (forall n :: Known(h', n) == Known(h, n))
    && (forall n, ty :: LastSelection(h', n, ty) == LastSelection(h, n, ty))
    && Introduced(h') == Introduced(h)
    && (FreshHistory(h) ==> FreshHistory(h'))
    && (forall home :: SelectionsHome(h, home) ==> SelectionsHome(h', home))
  }

  lemma {:induction false} QuietExtend(h: History, es: seq<Event>)
    requires forall e :: e in es ==> Quiet(e)
    ensures SameFacts(h, Extend(h, es))
  {
    if es != [] {
      var front := es[..|es| - 1];
      assert es[|es| - 1] in es && forall e :: e in front ==> e in es;
      QuietExtend(h, front);
    }
  }

  /** Each selection event named an offer made for that selection. */
  predicate SelectionsHome(h: History, home: map<OfferId, Slot>) {
    h.Then? ==>
      && SelectionsHome(h.past, home)
      && (h.event.Selected? && h.event.maybeOffer.Some? ==>
            h.event.maybeOffer.value in home && home[h.event.maybeOffer.value] == Slot(h.event.seat, h.event.ty))
  }

  lemma {:induction false} LastIsHome(h: History, home: map<OfferId, Slot>, n: SeatName, ty: SelectionType)
    requires SelectionsHome(h, home) && Origin(h, n, ty).Some?
    ensures Origin(h, n, ty).value in home && home[Origin(h, n, ty).value] == Slot(n, ty)
  {
    if !(Selects(h.event, n, ty) && Known(h.past, n)) {
      LastIsHome(h.past, home, n, ty);
    }
  }

  lemma {:induction false} HomeParts(h: History, q: seq<Event>, home: map<OfferId, Slot>)
    requires SelectionsHome(Extend(h, q), home)
    ensures SelectionsHome(h, home)
  {
    if q != [] { HomeParts(h, q[..|q| - 1], home); }
  }

  lemma {:induction false} HomeGrows(h: History, home: map<OfferId, Slot>, o: OfferId, slot: Slot)
    requires SelectionsHome(h, home) && o !in home
    ensures SelectionsHome(h, home[o := slot])
  {
    if h.Then? { HomeGrows(h.past, home, o, slot); }
  }

  lemma {:induction false} UntouchedHistory(h: History, q: seq<Event>, n: SeatName, ty: SelectionType)
    requires !TouchedIn(q, n, ty)
    ensures LastSelection(Extend(h, q), n, ty) == LastSelection(h, n, ty) && Known(Extend(h, q), n) == Known(h, n)
  {
    if q != [] {
      var front, e := q[..|q| - 1], q[|q| - 1];
      assert e in q && forall x :: x in front ==> x in q;
      UntouchedHistory(h, front, n, ty);
    }
  }

  // ----- the invariant -----

  function Future(s: System): History {
    Extend(s.client.world.history, s.queue)
  }

  /** What was last announced, once the queue is dispatched. */
  function Shown(sv: Server, n: SeatName, ty: SelectionType): Option<Option<OfferId>> {
    if Slot(n, ty) in sv.current then Some(sv.current[Slot(n, ty)]) else None
  }

  ghost predicate StreamOk(h: History, sv: Server) {
    && FreshHistory(h)
    && Introduced(h) <= sv.provenance.Keys
    && sv.home.Keys == sv.provenance.Keys
    && SelectionsHome(h, sv.home)
    && (forall n :: n in sv.seats <==> Known(h, n))
    && (forall n, ty :: LastSelection(h, n, ty) == Shown(sv, n, ty))
  }

  ghost predicate OwnOffersOk(w: World, sv: Server) {
    forall o :: o in sv.provenance && sv.provenance[o].Own? ==>
      && o in sv.home
      && sv.provenance[o].source < |w.published|
      && w.published[sv.provenance[o].source].seat == sv.home[o].seat
      && w.published[sv.provenance[o].source].ty == sv.home[o].ty
  }

  ghost predicate RequestsOk(s: System) {
    && s.server.cursor <= |s.client.world.out|
    && (forall o :: o in s.server.forwarded ==> AskedBy(s, o))
  }

  /** The one answer to the roundtrip under way, if it was given, is at position `k`. */
  predicate AnswerAt(q: seq<Event>, k: nat) {
    k < |q| && q[k] == Done && forall j :: 0 <= j < |q| && q[j] == Done ==> j == k
  }

  predicate Unserved(s: System, r: Request) {
    s.server.cursor <= |s.client.world.out| && r in s.client.world.out[s.server.cursor..]
  }

  ghost predicate AnswerOk(s: System) {
    match s.client.phase
    case Idle => Done !in s.queue && !Unserved(s, Sync)
    case InRoundtrip(_) =>
      var out := s.client.world.out;
      && out != [] && out[|out| - 1] == Sync
      && s.server.cursor <= |out|
      && (if s.server.cursor < |out| then Done !in s.queue && Sync !in out[s.server.cursor..|out| - 1]
          else exists k: nat :: AnswerAt(s.queue, k))
    case _ => true
  }

  /** Our source is about to be asked for data through one of these pipes. */
  predicate SentIn(q: seq<Event>, src: SourceId, fds: map<Fd, bool>) {
    exists e :: e in q && e.Send? && e.source == src && e.fd in fds && !e.fault.MetadataFault?
  }

  /** An own offer that is being read is found out by the time of the answer, or replaced. */
  ghost predicate FoundOut(s: System, a: Awaiting) {
    IsReading(s.client.world, a.seat, a.ty) ==>
      var r := At(s.client.world, a.seat, a.ty).value;
      r.offer in s.server.provenance && s.server.provenance[r.offer].Own? ==>
        var src := s.server.provenance[r.offer].source;
        && (Done !in s.queue && r.offer in s.server.forwarded ==> SentIn(s.queue, src, r.fds))
        && (forall k: nat :: AnswerAt(s.queue, k) ==>
            TouchedIn(s.queue[..k], a.seat, a.ty) || SentIn(s.queue[..k], src, r.fds))
  }

  ghost predicate EchoOk(s: System) {
    s.client.phase.InRoundtrip? ==> forall a :: a in s.client.phase.awaiting ==> FoundOut(s, a)
  }

  function ForeignOffers(sv: Server): set<OfferId> {
    set o | o in sv.provenance && sv.provenance[o].Foreign?
  }

  ghost predicate OnlyForeign(s: System) {
    forall n, ty :: ReadsForeign(s.client.world, n, ty, ForeignOffers(s.server))
                    && PaidFor(s.client.world, n, ty, ForeignOffers(s.server))
  }

  /** The client's own invariants. */
  ghost predicate ClientSideOk(c: Client, st: Settings, written: Content) {
    && ClientOk(c, st, written) && OffersProper(c.world) && SourcesProper(c.world) && AskedOk(c.world)
  }

  ghost predicate SystemOk(s: System, st: Settings, written: Content) {
    && ClientSideOk(s.client, st, written)
    && StreamOk(Future(s), s.server)
    && OwnOffersOk(s.client.world, s.server)
    && RequestsOk(s)
    && AnswerOk(s)
    && EchoOk(s)
    && OnlyForeign(s)
  }
}
