/** The client as a function: what every callback, the resolution loop, the reader and the
    publication do to the whole client state. */
module ClientSpec {
  import opened Protocol
  import opened MimeAccounting
  import opened PipeReader
  import opened History

  datatype Selection =
    | Waiting
    | ReadMimes(offer: OfferId, ordered: seq<Mime>, unique: set<Mime>, bytesRead: nat, fds: map<Fd, bool>)
    | GotPipes(ordered: seq<Mime>, reader: Reader)
    | GotData(ordered: seq<Mime>, data: map<Mime, Bytes>)
    | GotClear
    | GotIgnoredEvent

  datatype SeatView = SeatView(
    offers: map<OfferId, Offer>,
    selection: PerType<Option<Selection>>,
    gotNew: PerType<bool>,
    sources: PerType<set<SourceId>>
  )

  /** What the callback of a data source has captured. */
  datatype Callback = Callback(seat: SeatName, ty: SelectionType, data: map<Mime, Bytes>)

  /** A task that writes data to another client. */
  datatype WriteJob = WriteJob(source: SourceId, mime: Mime, fd: Fd, data: Bytes)

  /** One call of `set_clipboard`, with what was known when it was made. */
  datatype Publication = Publication(
    seat: SeatName,
    ty: SelectionType,
    source: SourceId,
    offered: seq<Mime>,
    data: map<Mime, Bytes>,
    history: History,
    faulty: set<Mime>
  )

  /** The client with its ledgers: the requests sent, the events dispatched, the publications made,
      and the MIME types of an offer whose pipe could not be set up or broke. */
  datatype World = World(
    seats: map<SeatName, SeatView>,
    managerRemoved: bool,
    nextSource: SourceId,
    callbacks: map<SourceId, Callback>,
    writes: seq<WriteJob>,
    out: seq<Request>,
    history: History,
    published: seq<Publication>,
    faults: set<(OfferId, Mime)>
  )

  datatype PipeOutcome = PipeFailed | MetadataFailed | Opened(fd: Fd)

  /** What the outside decides: the iteration order of hash tables and how the creation of each pipe
      turns out. */
  datatype Env = Env(
    order: set<nat> -> seq<nat>,
    typeOrder: set<Mime> -> seq<Mime>,
    open: (SeatName, SelectionType, Mime) -> PipeOutcome
  )

  ghost predicate EnvOk(env: Env) {
    && (forall s :: Lists(env.order(s), s))
    && (forall s :: Lists(env.typeOrder(s), s))
  }

  function At(w: World, n: SeatName, ty: SelectionType): Option<Selection> {
    if n in w.seats then w.seats[n].selection.At(ty) else None
  }

  function Flag(w: World, n: SeatName, ty: SelectionType): bool {
    n in w.seats && w.seats[n].gotNew.At(ty)
  }

  function Put(w: World, n: SeatName, ty: SelectionType, s: Selection): World
    requires n in w.seats
  {
    var v := w.seats[n];
    w.(seats := w.seats[n := v.(selection := v.selection.With(ty, Some(s)))])
  }

  function Emit(w: World, rs: seq<Request>): World {
    w.(out := w.out + rs)
  }

  // ----- transitions of one selection -----

  /** The requests that destroy the protocol objects of a selection. */
  function Teardown(s: Option<Selection>): seq<Request> {
    if s.Some? && s.value.ReadMimes? then [DestroyOffer(s.value.offer)] else []
  }

  /** Destroys what the selection holds and switches it to `s`. */
  function Switch(w: World, n: SeatName, ty: SelectionType, s: Selection): World
    requires n in w.seats
  {
    Put(Emit(w, Teardown(At(w, n, ty))), n, ty, s)
  }

  // ----- callbacks -----

  function NewSeat(st: Settings): SeatView {
    SeatView(map[],
             PerType(if st.Enabled(Regular) then Some(Waiting) else None,
                     if st.Enabled(Primary) then Some(Waiting) else None),
             PerType(false, false),
             PerType({}, {}))
  }

  function DestroyOffers(os: seq<OfferId>): seq<Request> {
    seq(|os|, i requires 0 <= i < |os| => DestroyOffer(os[i]))
  }

  function DestroySources(ss: seq<SourceId>): seq<Request> {
    seq(|ss|, i requires 0 <= i < |ss| => DestroySource(ss[i]))
  }

  function SeatTeardown(n: SeatName, v: SeatView, env: Env): seq<Request> {
    DestroyOffers(env.order(v.offers.Keys))
    + Teardown(v.selection.regular) + Teardown(v.selection.primary)
    + DestroySources(env.order(v.sources.regular)) + DestroySources(env.order(v.sources.primary))
    + [DestroyDevice(n)]
  }

  function RemoveSeat(w: World, n: SeatName, env: Env): World {
    if n !in w.seats then w
    else Emit(w.(seats := w.seats - {n}), SeatTeardown(n, w.seats[n], env))
  }

  function OnSeatAdded(w: World, n: SeatName, bound: bool, st: Settings, env: Env): World {
    if !bound then w
    else
      var w1 := RemoveSeat(w, n, env);
      w1.(seats := w1.seats[n := NewSeat(st)])
  }

  function OnGlobalRemoved(w: World, n: SeatName, manager: bool, env: Env): World {
    if n in w.seats then RemoveSeat(w, n, env)
    else if manager then w.(managerRemoved := true)
    else w
  }

  function OnDataOffer(w: World, n: SeatName, o: OfferId): World {
    if n !in w.seats then w
    else
      var v := w.seats[n];
      Emit(w.(seats := w.seats[n := v.(offers := v.offers[o := NEW_OFFER])]),
           if o in v.offers then [DestroyOffer(o)] else [])
  }

  function OnOfferedType(w: World, n: SeatName, o: OfferId, m: Mime, st: Settings): World {
    if n !in w.seats || o !in w.seats[n].offers then w
    else
      var v := w.seats[n];
      w.(seats := w.seats[n := v.(offers := v.offers[o := Advertise(v.offers[o], m, st)])])
  }

  /** The state a selection switches to when it is told of `maybe`. */
  function Named(v: SeatView, maybe: Option<OfferId>, st: Settings): Selection {
    if maybe.None? || maybe.value !in v.offers then GotClear
    else
      var offer := v.offers[maybe.value];
      if ShouldIgnore(offer, st) then GotIgnoredEvent
      else ReadMimes(maybe.value, offer.ordered, offer.unique, offer.bytesRead, map[])
  }

  /** The seat after a selection event, and the requests that the event causes. */
  function SelectedView(v: SeatView, ty: SelectionType, maybe: Option<OfferId>, st: Settings): SeatView {
    var offers := if maybe.Some? && maybe.value in v.offers then v.offers - {maybe.value} else v.offers;
    if v.selection.At(ty).None? then v.(offers := offers)
    else SeatView(offers, v.selection.With(ty, Some(Named(v, maybe, st))), v.gotNew.With(ty, true), v.sources)
  }

  function SelectedRequests(v: SeatView, ty: SelectionType, maybe: Option<OfferId>, st: Settings): seq<Request> {
    if v.selection.At(ty).None? then
      (if maybe.Some? && maybe.value in v.offers then [DestroyOffer(maybe.value)] else [])
    else Teardown(v.selection.At(ty)) + if Named(v, maybe, st).GotIgnoredEvent? then [DestroyOffer(maybe.value)] else []
  }

  function OnSelected(w: World, n: SeatName, ty: SelectionType, maybe: Option<OfferId>, st: Settings): World {
    if n !in w.seats then w
    else
      var v := w.seats[n];
      Emit(w.(seats := w.seats[n := SelectedView(v, ty, maybe, st)]), SelectedRequests(v, ty, maybe, st))
  }

  /** The pipe was made for the offer that the selection is looking at. */
  predicate IsOwnPipe(v: SeatView, ty: SelectionType, fd: Fd) {
    var state := v.selection.At(ty);
    state.Some? && state.value.ReadMimes? && fd in state.value.fds
  }

  function MarkedView(v: SeatView, ty: SelectionType, fd: Fd): SeatView
    requires IsOwnPipe(v, ty, fd)
  {
    var state := v.selection.At(ty).value;
    v.(selection := v.selection.With(ty, Some(state.(fds := state.fds[fd := true]))))
  }

  function OnSend(w: World, s: SourceId, m: Mime, fd: Fd, fault: SendFault): World {
    if s !in w.callbacks || fault.MetadataFault? then w
    else
      var cb := w.callbacks[s];
      if cb.seat in w.seats && IsOwnPipe(w.seats[cb.seat], cb.ty, fd) then
        w.(seats := w.seats[cb.seat := MarkedView(w.seats[cb.seat], cb.ty, fd)])
      else if m !in cb.data || fault.HandleFault? then w
      else w.(writes := w.writes + [WriteJob(s, m, fd, cb.data[m])])
  }

  function OnCancelled(w: World, s: SourceId): World {
    if s !in w.callbacks then w
    else
      var cb := w.callbacks[s];
      if cb.seat !in w.seats || s !in w.seats[cb.seat].sources.At(cb.ty) then w
      else
        var v := w.seats[cb.seat];
        Emit(w.(seats := w.seats[cb.seat := v.(sources := v.sources.With(cb.ty, v.sources.At(cb.ty) - {s}))]),
             [DestroySource(s)])
  }

  /** What the callback of an event does. */
  function Handle(w: World, e: Event, st: Settings, env: Env): World {
    match e
    case SeatAdded(n, bound) => OnSeatAdded(w, n, bound, st, env)
    case GlobalRemoved(n, manager) => OnGlobalRemoved(w, n, manager, env)
    case DataOffer(n, o) => OnDataOffer(w, n, o)
    case OfferedType(n, o, m) => OnOfferedType(w, n, o, m, st)
    case Selected(n, ty, maybe) => OnSelected(w, n, ty, maybe, st)
    case Finished(n) => RemoveSeat(w, n, env)
    case Send(s, m, fd, fault) => OnSend(w, s, m, fd, fault)
    case Cancelled(s) => OnCancelled(w, s)
    case Done => w
  }

  function Dispatch(w: World, e: Event, st: Settings, env: Env): World {
    Handle(w, e, st, env).(history := Then(w.history, e))
  }

  function DispatchAll(w: World, es: seq<Event>, st: Settings, env: Env): World {
    if es == [] then w
    else Dispatch(DispatchAll(w, es[..|es| - 1], st, env), es[|es| - 1], st, env)
  }

  // ----- the resolution loop -----

  /** Pipes that were created for a selection and wait for the roundtrip. */
  datatype Awaiting = Awaiting(seat: SeatName, ty: SelectionType, pipes: seq<PipeRecord>)

  datatype Created = Created(pipes: seq<PipeRecord>, error: bool, faulty: set<Mime>)

  /** Creates a pipe for each of the MIME types `todo`. */
  function CreatePipes(todo: seq<Mime>, open: Mime -> PipeOutcome, st: Settings): Created {
    if todo == [] then Created([], false, {})
    else
      var m, rest := todo[0], todo[1..];
      if st.Skips(m) then CreatePipes(rest, open, st)
      else
        match open(m)
        case Opened(fd) =>
          var c := CreatePipes(rest, open, st);
          c.(pipes := [PipeRecord(m, fd, Unset, false)] + c.pipes)
        case _ =>
          if st.ignoreOnError then Created([], true, {m})
          else
            var c := CreatePipes(rest, open, st);
            c.(faulty := c.faulty + {m})
  }

  function Receives(o: OfferId, pipes: seq<PipeRecord>): seq<Request> {
    seq(|pipes|, i requires 0 <= i < |pipes| => Receive(o, pipes[i].mime, pipes[i].fd))
  }

  function Unmarked(pipes: seq<PipeRecord>): map<Fd, bool> {
    if pipes == [] then map[] else Unmarked(pipes[..|pipes| - 1])[pipes[|pipes| - 1].fd := false]
  }

  function OpenFor(env: Env, n: SeatName, ty: SelectionType): Mime -> PipeOutcome {
    m => env.open(n, ty, m)
  }

  function Tagged(o: OfferId, ms: set<Mime>): set<(OfferId, Mime)> {
    set m | m in ms :: (o, m)
  }

  function NoteFaults(w: World, o: OfferId, ms: set<Mime>): World {
    w.(faults := w.faults + Tagged(o, ms))
  }

  function Prepare(w: World, n: SeatName, ty: SelectionType, st: Settings, env: Env): (World, seq<Awaiting>) {
    match At(w, n, ty)
    case Some(ReadMimes(o, ordered, unique, bytesRead, fds)) =>
      var c := CreatePipes(env.typeOrder(unique), OpenFor(env, n, ty), st);
      var w1 := Emit(NoteFaults(w, o, c.faulty), Receives(o, c.pipes));
      if c.error || c.pipes == [] then (Switch(w1, n, ty, Waiting), [])
      else (Put(w1, n, ty, ReadMimes(o, ordered, {}, bytesRead, fds + Unmarked(c.pipes))), [Awaiting(n, ty, c.pipes)])
    case Some(GotClear) => (Switch(w, n, ty, Waiting), [])
    case Some(GotIgnoredEvent) => (Switch(w, n, ty, Waiting), [])
    case _ => (w, [])
  }

  datatype Slot = Slot(seat: SeatName, ty: SelectionType)

  /** The selections of the given seats, in the order in which they are visited. */
  function Slots(ns: seq<SeatName>): seq<Slot> {
    if ns == [] then []
    else Slots(ns[..|ns| - 1]) + [Slot(ns[|ns| - 1], Regular), Slot(ns[|ns| - 1], Primary)]
  }

  function PrepareAll(w: World, slots: seq<Slot>, st: Settings, env: Env): (World, seq<Awaiting>) {
    if slots == [] then (w, [])
    else
      var last := slots[|slots| - 1];
      var (w1, a) := PrepareAll(w, slots[..|slots| - 1], st, env);
      var (w2, b) := Prepare(w1, last.seat, last.ty, st, env);
      (w2, a + b)
  }

  function ClearFlags(w: World): World {
    w.(seats := map n | n in w.seats :: w.seats[n].(gotNew := PerType(false, false)))
  }

  predicate AnyFlag(w: World) {
    exists n :: n in w.seats && (w.seats[n].gotNew.regular || w.seats[n].gotNew.primary)
  }

  /** The loop up to its roundtrip. An empty list of pipes means that the loop is left at once. */
  function StartRound(w: World, st: Settings, env: Env): (World, seq<Awaiting>) {
    var (w1, awaiting) := PrepareAll(w, Slots(env.order(w.seats.Keys)), st, env);
    if awaiting == [] then (w1, []) else (Emit(ClearFlags(w1), [Sync]), awaiting)
  }

  /** The world after a step, or a hit `unreachable!()`. */
  datatype Outcome = Panicked | Continues(world: World)

  predicate AnyMarked(fds: map<Fd, bool>) {
    exists fd :: fd in fds && fds[fd]
  }

  /** What becomes of one list of pipes once the roundtrip is over. */
  function Resolve(w: World, a: Awaiting): Outcome {
    if a.seat !in w.seats || Flag(w, a.seat, a.ty) then Continues(w)
    else
      match At(w, a.seat, a.ty)
      case Some(ReadMimes(o, ordered, _, bytesRead, fds)) =>
        if AnyMarked(fds) then Continues(Switch(w, a.seat, a.ty, Waiting))
        else Continues(Switch(w, a.seat, a.ty, GotPipes(ordered, Reader(a.pipes, bytesRead, 0, 0))))
      case _ => Panicked
  }

  function ResolveAll(w: World, awaiting: seq<Awaiting>): Outcome {
    if awaiting == [] then Continues(w)
    else
      match ResolveAll(w, awaiting[..|awaiting| - 1])
      case Panicked => Panicked
      case Continues(w1) => Resolve(w1, awaiting[|awaiting| - 1])
  }

  // ----- publication -----

  function Keep(ms: seq<Mime>, keys: set<Mime>): seq<Mime> {
    if ms == [] then []
    else
      var front, m := Keep(ms[..|ms| - 1], keys), ms[|ms| - 1];
      if m in keys then front + [m] else front
  }

  function OfferTypes(s: SourceId, ms: seq<Mime>): seq<Request> {
    seq(|ms|, i requires 0 <= i < |ms| => OfferType(s, ms[i]))
  }

  function FaultyTypes(w: World, n: SeatName, ty: SelectionType): set<Mime> {
    match LastSelection(w.history, n, ty)
    case Some(Some(o)) => set f | f in w.faults && f.0 == o :: f.1
    case _ => {}
  }

  /** A new data source takes the selection over. */
  function Announce(w: World, n: SeatName, ty: SelectionType, ordered: seq<Mime>, data: map<Mime, Bytes>): World
    requires n in w.seats
  {
    var s, v := w.nextSource, w.seats[n];
    var offered := Keep(ordered, data.Keys);
    var w1 := Emit(w, [CreateSource(s)] + OfferTypes(s, offered)
                      + (if s in v.sources.At(ty) then [DestroySource(s)] else [])
                      + [SetSelection(n, ty, s)]);
    w1.(nextSource := s + 1,
        callbacks := w1.callbacks[s := Callback(n, ty, data)],
        seats := w1.seats[n := v.(sources := v.sources.With(ty, v.sources.At(ty) + {s}))],
        published := w1.published + [Publication(n, ty, s, offered, data, w.history, FaultyTypes(w, n, ty))])
  }

  function SetClipboard(w: World, n: SeatName, ty: SelectionType, ordered: seq<Mime>, data: map<Mime, Bytes>): World
    requires n in w.seats
  {
    Switch(Announce(w, n, ty, ordered, data), n, ty, Waiting)
  }

  function Publish(w: World, n: SeatName, ty: SelectionType): World {
    match At(w, n, ty)
    case Some(GotData(ordered, data)) => if w.seats[n].offers == map[] then SetClipboard(w, n, ty, ordered, data) else w
    case _ => w
  }

  function PublishAll(w: World, slots: seq<Slot>): World {
    if slots == [] then w
    else Publish(PublishAll(w, slots[..|slots| - 1]), slots[|slots| - 1].seat, slots[|slots| - 1].ty)
  }

  // ----- reading -----

  predicate CanRead(w: World, n: SeatName, ty: SelectionType, i: nat) {
    var s := At(w, n, ty);
    s.Some? && s.value.GotPipes? && i < |s.value.reader.pipes| && !s.value.reader.pipes[i].finished
  }

  /** What becomes of a selection whose pipes have all been read. */
  function Used(w: World, n: SeatName, ty: SelectionType, ordered: seq<Mime>, data: map<Mime, Bytes>): World
    requires n in w.seats
  {
    if data == map[] then Switch(w, n, ty, Waiting)
    else if w.seats[n].offers == map[] then SetClipboard(w, n, ty, ordered, data)
    else Put(w, n, ty, GotData(ordered, data))
  }

  /** Pipe `i` of a selection yields `d`. When that ends the reading, the result is used at once. */
  function Deliver(w: World, n: SeatName, ty: SelectionType, i: nat, d: Delivery, st: Settings): Outcome
    requires CanRead(w, n, ty, i)
  {
    var s := At(w, n, ty).value;
    var step := Wake(s.reader, i, d, st);
    var w1 := if d.Broken? then NoteFault(w, n, ty, s.reader.pipes[i].mime) else w;
    match step.verdict
    case Pending => Continues(Put(w1, n, ty, s.(reader := step.reader)))
    case Abandoned(_) => Continues(Switch(w1, n, ty, Waiting))
    case Unreachable => Panicked
    case Complete =>
      match Collect(step.reader.pipes)
      case None => Panicked
      case Some(data) =>
        Continues(Used(w1, n, ty, s.ordered, data))
  }

  function NoteFault(w: World, n: SeatName, ty: SelectionType, m: Mime): World {
    match LastSelection(w.history, n, ty)
    case Some(Some(o)) => NoteFaults(w, o, {m})
    case _ => w
  }

  // ----- the main loop -----

  /** Where the program is suspended. */
  datatype Phase =
    | Idle                                // waiting for events or for a pipe
    | InRoundtrip(awaiting: seq<Awaiting>) // waiting for the roundtrip of the resolution loop
    | Stopped                             // left with an error: the manager was removed
    | Crashed                             // hit an `unreachable!()`

  datatype Client = Client(world: World, phase: Phase)

  /** What wakes the program up. */
  datatype Action =
    | Events(batch: seq<Event>, env: Env)
    | RoundtripDone(batch: seq<Event>, env: Env)
    | PipeReady(seat: SeatName, ty: SelectionType, pipe: nat, delivery: Delivery)

  /** From the head of the resolution loop to the next suspension. */
  function TakeTurn(w: World, st: Settings, env: Env): Client {
    var (w1, awaiting) := StartRound(w, st, env);
    if awaiting == [] then Client(PublishAll(w1, Slots(env.order(w1.seats.Keys))), Idle)
    else Client(w1, InRoundtrip(awaiting))
  }

  function OnEvents(w: World, batch: seq<Event>, st: Settings, env: Env): Client {
    var w1 := DispatchAll(w, batch, st, env);
    if w1.managerRemoved then Client(w1, Stopped) else TakeTurn(w1, st, env)
  }

  function OnRoundtripDone(w: World, awaiting: seq<Awaiting>, batch: seq<Event>, st: Settings, env: Env): Client {
    var w1 := DispatchAll(w, batch, st, env);
    if w1.managerRemoved then Client(w1, Stopped)
    else
      var again := AnyFlag(w1);
      match ResolveAll(w1, awaiting)
      case Panicked => Client(w1, Crashed)
      case Continues(w2) =>
        if again then TakeTurn(w2, st, env)
        else Client(PublishAll(w2, Slots(env.order(w2.seats.Keys))), Idle)
  }

  /** The action can happen now. */
  ghost predicate Enabled(c: Client, a: Action) {
    match a
    case Events(batch, env) => c.phase.Idle? && EnvOk(env) && FreshOffers(c.world.history, batch)
    case RoundtripDone(batch, env) => c.phase.InRoundtrip? && EnvOk(env) && FreshOffers(c.world.history, batch)
    case PipeReady(n, ty, i, d) => c.phase.Idle? && CanRead(c.world, n, ty, i)
  }

  function Apply(c: Client, a: Action, st: Settings): Client {
    match a
    case Events(batch, env) => OnEvents(c.world, batch, st, env)
    case RoundtripDone(batch, env) =>
      if c.phase.InRoundtrip? then OnRoundtripDone(c.world, c.phase.awaiting, batch, st, env) else c
    case PipeReady(n, ty, i, d) =>
      if CanRead(c.world, n, ty, i) then
        match Deliver(c.world, n, ty, i, d, st)
        case Panicked => c.(phase := Crashed)
        case Continues(w) => Client(w, Idle)
      else c
  }

  const INITIAL := Client(World(map[], false, 0, map[], [], [], Start, [], {}), Idle)
}
