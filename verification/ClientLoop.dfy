/** The resolution loop, the publication and the main loop of the client, as they work on its state.
    Each method is proved to do what `ClientSpec` says, and the main loop to follow the run that its
    wake-ups make up. */
module ClientLoop {
  import opened Protocol
  import opened PipeReader
  import opened ReadingTasks
  import opened ClientSpec
  import opened ClientObjects
  import opened ClientProgram

  method DispatchEvents(state: State, batch: seq<Event>, env: Env)
    requires state.Valid() && EnvOk(env)
    modifies state, state.conn, state.repr
    ensures state.Valid() && state.View() == DispatchAll(old(state.View()), batch, state.settings, env)
    ensures old(state.repr) <= state.repr && fresh(state.repr - old(state.repr))
  {
    for k := 0 to |batch|
      invariant state.Valid() && state.View() == DispatchAll(old(state.View()), batch[..k], state.settings, env)
      invariant old(state.repr) <= state.repr && fresh(state.repr - old(state.repr))
    {
      assert batch[..k + 1][..k] == batch[..k];
      state.DispatchOne(batch[k], env);
    }
    assert batch[..|batch|] == batch;
  }

  // ----- the resolution loop -----

  lemma OneMorePipe(o: OfferId, pipes: seq<PipeRecord>, p: PipeRecord)
    ensures Unmarked(pipes + [p]) == Unmarked(pipes)[p.fd := false]
    ensures Receives(o, pipes + [p]) == Receives(o, pipes) + [Receive(o, p.mime, p.fd)]
  {
    assert (pipes + [p])[..|pipes|] == pipes;
  }

  lemma OneMoreFault(o: OfferId, ms: set<Mime>, m: Mime)
    ensures Tagged(o, ms + {m}) == Tagged(o, ms) + {(o, m)}
  {
  }

  ghost function Onto(pipes: seq<PipeRecord>, faulty: set<Mime>, rest: Created): Created {
    Created(pipes + rest.pipes, rest.error, faulty + rest.faulty)
  }

  lemma CreateNext(todo: seq<Mime>, k: nat,
                   open: Mime -> PipeOutcome, st: Settings, pipes: seq<PipeRecord>, faulty: set<Mime>)
    requires k < |todo|
    ensures var m := todo[k];
            var rest := CreatePipes(todo[k + 1..], open, st);
            Onto(pipes, faulty, CreatePipes(todo[k..], open, st)) ==
            if st.Skips(m) then Onto(pipes, faulty, rest)
            else match open(m)
              case Opened(fd) => Onto(pipes + [PipeRecord(m, fd, Unset, false)], faulty, rest)
              case _ => if st.ignoreOnError then Created(pipes, true, faulty + {m}) else Onto(pipes, faulty + {m}, rest)
  {
    assert todo[k..][0] == todo[k] && todo[k..][1..] == todo[k + 1..];
  }

  /** Creates and requests a pipe for each of the MIME types, and remembers their identities. */
  method CreatePipesForMimeTypes(conn: Connection, o: OfferId, todo: seq<Mime>,
                                 open: Mime -> PipeOutcome, fds: map<Fd, bool>, st: Settings)
    returns (pipes: seq<PipeRecord>, error: bool, ids: map<Fd, bool>)
    modifies conn`sent, conn`faults
    ensures var c := CreatePipes(todo, open, st);
            && pipes == c.pipes && error == c.error && ids == fds + Unmarked(pipes)
            && conn.sent == old(conn.sent) + Receives(o, pipes)
            && conn.faults == old(conn.faults) + Tagged(o, c.faulty)
  {
    pipes, error, ids := [], false, fds;
    ghost var c, faulty := CreatePipes(todo, open, st), {};
    for k := 0 to |todo|
      invariant c == Onto(pipes, faulty, CreatePipes(todo[k..], open, st))
      invariant !error && ids == fds + Unmarked(pipes)
      invariant conn.sent == old(conn.sent) + Receives(o, pipes)
      invariant conn.faults == old(conn.faults) + Tagged(o, faulty)
    {
      var m := todo[k];
      CreateNext(todo, k, open, st, pipes, faulty);
      if st.Skips(m) {
        continue;
      }
      if !open(m).Opened? {
        OneMoreFault(o, faulty, m);
        faulty := faulty + {m};
        conn.faults := conn.faults + {(o, m)};
        if st.ignoreOnError {
          error := true;
          return;
        }
      } else {
        pipes, ids := RequestPipe(conn, o, m, open(m).fd, pipes, fds, ids);
      }
    }
  }

  /** Remembers the identity of a new pipe, and asks for the data of the type. */
  method RequestPipe(conn: Connection, o: OfferId, m: Mime, fd: Fd, pipes: seq<PipeRecord>, ghost fds: map<Fd, bool>,
                     ids: map<Fd, bool>)
    returns (pipes': seq<PipeRecord>, ids': map<Fd, bool>)
    requires ids == fds + Unmarked(pipes)
    modifies conn`sent
    ensures pipes' == pipes + [PipeRecord(m, fd, Unset, false)] && ids' == fds + Unmarked(pipes')
    ensures forall sent: seq<Request> :: old(conn.sent) == sent + Receives(o, pipes) ==>
            conn.sent == sent + Receives(o, pipes')
  {
    OneMorePipe(o, pipes, PipeRecord(m, fd, Unset, false));
    ids' := ids[fd := false];
    conn.Send(Receive(o, m, fd));
    pipes' := pipes + [PipeRecord(m, fd, Unset, false)];
  }

  /** What the resolution loop does to one selection before its roundtrip. */
  method PrepareSelection(conn: Connection, cell: SelectionCell, n: SeatName, ty: SelectionType, st: Settings, env: Env)
    returns (awaiting: seq<Awaiting>)
    modifies cell, conn`sent, conn`faults
    ensures match old(cell.state)
            case ReadMimes(o, ordered, unique, bytesRead, fds) =>
              var c := CreatePipes(env.typeOrder(unique), OpenFor(env, n, ty), st);
              var given := c.error || c.pipes == [];
              && conn.faults == old(conn.faults) + Tagged(o, c.faulty)
              && conn.sent == (if given then old(conn.sent) + Receives(o, c.pipes) + [DestroyOffer(o)]
                               else old(conn.sent) + Receives(o, c.pipes))
              && cell.state == (if given then Waiting
                                else ReadMimes(o, ordered, {}, bytesRead, fds + Unmarked(c.pipes)))
              && awaiting == if given then [] else [Awaiting(n, ty, c.pipes)]
            case s =>
              && conn.faults == old(conn.faults) && conn.sent == old(conn.sent) && awaiting == []
              && cell.state == if s.GotClear? || s.GotIgnoredEvent? then Waiting else s
  {
    awaiting := [];
    match cell.state
    case ReadMimes(o, ordered, unique, bytesRead, fds) =>
      cell.state := ReadMimes(o, ordered, {}, bytesRead, fds);
      var pipes, error, ids := CreatePipesForMimeTypes(conn, o, env.typeOrder(unique), OpenFor(env, n, ty), fds, st);
      cell.state := ReadMimes(o, ordered, {}, bytesRead, ids);
      if error || pipes == [] {
        cell.Reset(conn);
      } else {
        awaiting := [Awaiting(n, ty, pipes)];
      }
    case GotClear => cell.Reset(conn);
    case GotIgnoredEvent => cell.Reset(conn);
    case _ =>
  }

  lemma PutSame(w: World, n: SeatName, ty: SelectionType)
    requires At(w, n, ty).Some?
    ensures Put(w, n, ty, At(w, n, ty).value) == w
  {
  }

  method PrepareSlot(state: State, n: SeatName, ty: SelectionType, env: Env) returns (awaiting: seq<Awaiting>)
    requires state.Valid()
    modifies state.conn, state.repr
    ensures state.Valid() && (state.View(), awaiting) == Prepare(old(state.View()), n, ty, state.settings, env)
  {
    if n !in state.seats || state.seats[n].Cell(ty) == null {
      return [];
    }
    awaiting := PrepareCell(state, n, ty, env);
  }

  method PrepareCell(state: State, n: SeatName, ty: SelectionType, env: Env) returns (awaiting: seq<Awaiting>)
    requires state.Valid() && n in state.seats && state.seats[n].Cell(ty) != null
    modifies state.conn, state.repr
    ensures state.Valid() && (state.View(), awaiting) == Prepare(old(state.View()), n, ty, state.settings, env)
  {
    ghost var w := state.View();
    var cell := state.seats[n].Cell(ty);
    assert At(w, n, ty) == Some(cell.state);
    awaiting := PrepareSelection(state.conn, cell, n, ty, state.settings, env);
    state.OtherSelectionsUnchanged(Slot(n, ty));
    PreparedParts(w, state.View(), n, ty, cell.state, awaiting, state.settings, env);
  }

  /** What `Prepare` makes of one selection, of the ledgers and of the pipes. */
  ghost predicate IsPrepared(s: Selection, s': Selection, w: World, w': World, awaiting: seq<Awaiting>, n: SeatName,
                             ty: SelectionType, st: Settings, env: Env) {
    match s
    case ReadMimes(o, ordered, unique, bytesRead, fds) =>
      var c := CreatePipes(env.typeOrder(unique), OpenFor(env, n, ty), st);
      var given := c.error || c.pipes == [];
      && w'.faults == w.faults + Tagged(o, c.faulty)
      && w'.out == (if given then w.out + Receives(o, c.pipes) + [DestroyOffer(o)] else w.out + Receives(o, c.pipes))
      && s' == (if given then Waiting else ReadMimes(o, ordered, {}, bytesRead, fds + Unmarked(c.pipes)))
      && awaiting == if given then [] else [Awaiting(n, ty, c.pipes)]
    case _ =>
      && w'.faults == w.faults && w'.out == w.out && awaiting == []
      && s' == if s.GotClear? || s.GotIgnoredEvent? then Waiting else s
  }

  lemma PreparedParts(w: World, w': World, n: SeatName, ty: SelectionType, s': Selection, awaiting: seq<Awaiting>,
                      st: Settings, env: Env)
    requires At(w, n, ty).Some? && IsPrepared(At(w, n, ty).value, s', w, w', awaiting, n, ty, st, env)
    requires w' == Put(w, n, ty, s').(out := w'.out, faults := w'.faults)
    ensures (w', awaiting) == Prepare(w, n, ty, st, env)
  {
    assert w.out + [] == w.out;
    PutSame(w, n, ty);
  }

  method PrepareSlots(state: State, slots: seq<Slot>, env: Env) returns (awaiting: seq<Awaiting>)
    requires state.Valid()
    modifies state.conn, state.repr
    ensures state.Valid() && (state.View(), awaiting) == PrepareAll(old(state.View()), slots, state.settings, env)
  {
    awaiting := [];
    for k := 0 to |slots|
      invariant state.Valid() &&
                (state.View(), awaiting) == PrepareAll(old(state.View()), slots[..k], state.settings, env)
    {
      assert slots[..k + 1][..k] == slots[..k];
      var more := PrepareSlot(state, slots[k].seat, slots[k].ty, env);
      awaiting := awaiting + more;
    }
    assert slots[..|slots|] == slots;
  }

  method ClearAllFlags(state: State)
    requires state.Valid()
    modifies state.repr
    ensures state.View() == ClearFlags(old(state.View()))
  {
    ghost var w := state.View();
    var left := state.seats.Keys;
    while left != {}
      invariant left <= w.seats.Keys
      invariant state.View() == FlagsLeft(w, left)
    {
      var n :| n in left;
      state.ClearFlagsOf(n);
      OneFlagLess(w, left, n);
      left := left - {n};
    }
    assert FlagsLeft(w, {}) == ClearFlags(w);
  }

  /** The world in which only the seats in `left` still have their flags. */
  ghost function FlagsLeft(w: World, left: set<SeatName>): World {
    w.(seats := map n | n in w.seats :: if n in left then w.seats[n] else w.seats[n].(gotNew := PerType(false, false)))
  }

  lemma OneFlagLess(w: World, left: set<SeatName>, n: SeatName)
    requires n in left && left <= w.seats.Keys
    ensures var v := FlagsLeft(w, left);
            v.(seats := v.seats[n := v.seats[n].(gotNew := PerType(false, false))]) == FlagsLeft(w, left - {n})
  {
  }

  /** The loop up to its roundtrip. */
  method BeginRound(state: State, env: Env) returns (awaiting: seq<Awaiting>)
    requires state.Valid() && EnvOk(env)
    modifies state.conn, state.repr
    ensures state.Valid() && (state.View(), awaiting) == StartRound(old(state.View()), state.settings, env)
  {
    assert state.View().seats.Keys == state.seats.Keys;
    awaiting := PrepareSlots(state, Slots(env.order(state.seats.Keys)), env);
    if awaiting != [] {
      AskForRoundtrip(state);
    }
  }

  method AskForRoundtrip(state: State)
    requires state.Valid()
    modifies state.conn`sent, state.repr
    ensures state.Valid() && state.View() == Emit(ClearFlags(old(state.View())), [Sync])
  {
    ClearAllFlags(state);
    ghost var w := state.View();
    state.conn.Send(Sync);
    assert state.SeatViews() == w.seats;
  }

  /** What becomes of one list of pipes after the roundtrip. The result is `false` where the source
      would hit one of its `unreachable!()`. */
  method ResolveSelection(state: State, a: Awaiting) returns (ok: bool)
    requires state.Valid()
    modifies state.conn, state.repr
    ensures state.Valid() && Resolve(old(state.View()), a) == if ok then Continues(state.View()) else Panicked
  {
    if a.seat !in state.seats {
      return true;
    }
    var seat := state.seats[a.seat];
    var gotNew := if a.ty.Regular? then seat.gotNewRegular else seat.gotNewPrimary;
    if gotNew {
      return true;
    }
    var cell := seat.Cell(a.ty);
    if cell == null || !cell.state.ReadMimes? {
      return false;
    }
    TakeAnswer(state, a.seat, a.ty, a.pipes);
    return true;
  }

  /** Drops the selection if one of its pipes came back to us, and starts reading them otherwise. */
  method TakeAnswer(state: State, n: SeatName, ty: SelectionType, pipes: seq<PipeRecord>)
    requires state.Valid() && n in state.seats && state.seats[n].Cell(ty) != null &&
             state.seats[n].Cell(ty).state.ReadMimes?
    modifies state.conn, state.repr
    ensures state.Valid()
    ensures var s := old(state.seats[n].Cell(ty).state);
            state.View() == Switch(old(state.View()), n, ty,
                                   if AnyMarked(s.fds) then Waiting
                                   else GotPipes(s.ordered, Reader(pipes, s.bytesRead, 0, 0)))
  {
    var cell := state.seats[n].Cell(ty);
    var own := HasOwnPipe(cell.state.fds);
    if own {
      cell.Reset(state.conn);
    } else {
      cell.SwitchToGotPipes(state.conn, pipes);
    }
    state.OtherSelectionsUnchanged(Slot(n, ty));
  }

  method HasOwnPipe(fds: map<Fd, bool>) returns (own: bool)
    ensures own == AnyMarked(fds)
  {
    var left := fds.Keys;
    while left != {}
      invariant left <= fds.Keys
      invariant forall fd :: fd in fds.Keys - left ==> !fds[fd]
    {
      var fd :| fd in left;
      if fds[fd] {
        return true;
      }
      left := left - {fd};
    }
    return false;
  }

  method ResolveSelections(state: State, awaiting: seq<Awaiting>) returns (ok: bool)
    requires state.Valid()
    modifies state.conn, state.repr
    ensures state.Valid() && ResolveAll(old(state.View()), awaiting) == if ok then Continues(state.View()) else Panicked
  {
    for k := 0 to |awaiting|
      invariant state.Valid() && ResolveAll(old(state.View()), awaiting[..k]) == Continues(state.View())
    {
      assert awaiting[..k + 1][..k] == awaiting[..k];
      ok := ResolveSelection(state, awaiting[k]);
      if !ok {
        StuckRound(old(state.View()), awaiting, k + 1);
        return;
      }
    }
    assert awaiting[..|awaiting|] == awaiting;
    return true;
  }

  /** Once the loop over the pipes has panicked, it stays so. */
  lemma {:induction false} StuckRound(w: World, awaiting: seq<Awaiting>, k: nat)
    requires k <= |awaiting| && ResolveAll(w, awaiting[..k]).Panicked?
    ensures ResolveAll(w, awaiting).Panicked?
  {
    if k < |awaiting| {
      assert awaiting[..|awaiting| - 1][..k] == awaiting[..k];
      StuckRound(w, awaiting[..|awaiting| - 1], k);
    } else {
      assert awaiting[..k] == awaiting;
    }
  }

  // ----- publication -----

  /** Takes a selection over: a new data source offers the types for which there is data. */
  method PublishSelection(state: State, n: SeatName, ty: SelectionType, ordered: seq<Mime>, data: map<Mime, Bytes>)
    requires state.Valid() && n in state.seats && state.seats[n].Cell(ty) != null
    modifies state.conn, state.repr
    ensures state.Valid() && state.View() == SetClipboard(old(state.View()), n, ty, ordered, data)
  {
    AnnounceSource(state, n, ty, ordered, data);
    ResetSelection(state, n, ty);
  }

  method ResetSelection(state: State, n: SeatName, ty: SelectionType)
    requires state.Valid() && n in state.seats && state.seats[n].Cell(ty) != null
    modifies state.conn`sent, state.repr
    ensures state.Valid() && state.View() == Switch(old(state.View()), n, ty, Waiting)
  {
    state.seats[n].Cell(ty).Reset(state.conn);
    state.OtherSelectionsUnchanged(Slot(n, ty));
  }

  method AnnounceSource(state: State, n: SeatName, ty: SelectionType, ordered: seq<Mime>, data: map<Mime, Bytes>)
    requires state.Valid() && n in state.seats
    modifies state.conn, state.repr
    ensures state.Valid() && state.View() == Announce(old(state.View()), n, ty, ordered, data)
  {
    ghost var w := state.View();
    var conn, seat := state.conn, state.seats[n];
    var s := conn.nextSource;
    assert seat.Sources(ty) == w.seats[n].sources.At(ty);
    SendSource(conn, s, n, ty, ordered, data, s in seat.Sources(ty), FaultyTypes(w, n, ty));
    ghost var w1 := state.View();
    assert w1 == Sent(w, n, ty, ordered, data) by {
      assert state.SeatViews() == w.seats;
    }
    AddSource(state, n, ty, s);
  }

  /** The world when the requests for a new data source have been sent, and the seat has yet to note it. */
  ghost function Sent(w: World, n: SeatName, ty: SelectionType, ordered: seq<Mime>, data: map<Mime, Bytes>): (w': World)
    requires n in w.seats
    ensures var v := w.seats[n];
            Announce(w, n, ty, ordered, data) ==
            w'.(seats := w.seats[n := v.(sources := v.sources.With(ty, v.sources.At(ty) + {w.nextSource}))])
  {
    Announce(w, n, ty, ordered, data).(seats := w.seats)
  }

  method AddSource(state: State, n: SeatName, ty: SelectionType, s: SourceId)
    requires state.Valid() && n in state.seats
    modifies state.repr
    ensures state.Valid()
    ensures var w := old(state.View());
            var v := w.seats[n];
            state.View() == w.(seats := w.seats[n := v.(sources := v.sources.With(ty, v.sources.At(ty) + {s}))])
  {
    var seat := state.seats[n];
    seat.SetSources(ty, seat.Sources(ty) + {s});
    state.OtherSeatsUnchanged(n);
  }

  method SendSource(conn: Connection, s: SourceId, n: SeatName, ty: SelectionType, ordered: seq<Mime>, data: map<Mime,
                    Bytes>, stale: bool, ghost faulty: set<Mime>)
    requires s == conn.nextSource
    modifies conn
    ensures conn.sent == old(conn.sent) + ([CreateSource(s)] + OfferTypes(s, Keep(ordered, data.Keys))
                         + (if stale then [DestroySource(s)] else []) + [SetSelection(n, ty, s)])
    ensures conn.nextSource == s + 1 && conn.callbacks == old(conn.callbacks)[s := Callback(n, ty, data)]
    ensures conn.dispatched == old(conn.dispatched) && conn.faults == old(conn.faults)
    ensures conn.published == old(conn.published)
                              + [Publication(n, ty, s, Keep(ordered, data.Keys), data, old(conn.dispatched), faulty)]
  {
    conn.nextSource := s + 1;
    conn.Send(CreateSource(s));
    OfferTypesFor(conn, s, ordered, data);
    conn.callbacks := conn.callbacks[s := Callback(n, ty, data)];
    if stale {
      conn.Send(DestroySource(s));
    }
    conn.Send(SetSelection(n, ty, s));
    conn.published := conn.published + [Publication(n, ty, s, Keep(ordered, data.Keys), data, conn.dispatched, faulty)];
  }

  method OfferTypesFor(conn: Connection, s: SourceId, ordered: seq<Mime>, data: map<Mime, Bytes>)
    modifies conn`sent
    ensures conn.sent == old(conn.sent) + OfferTypes(s, Keep(ordered, data.Keys))
  {
    for k := 0 to |ordered|
      invariant conn.sent == old(conn.sent) + OfferTypes(s, Keep(ordered[..k], data.Keys))
    {
      assert ordered[..k + 1][..k] == ordered[..k];
      if ordered[k] in data {
        conn.Send(OfferType(s, ordered[k]));
      }
    }
    assert ordered[..|ordered|] == ordered;
  }

  /** Publishes what one selection has held back, unless its seat still has an offer of unknown type. */
  method PublishDeferred(state: State, n: SeatName, ty: SelectionType)
    requires state.Valid()
    modifies state.conn, state.repr
    ensures state.Valid() && state.View() == Publish(old(state.View()), n, ty)
  {
    if n !in state.seats || state.seats[n].offers != map[] {
      return;
    }
    var cell := state.seats[n].Cell(ty);
    if cell == null {
      return;
    }
    match cell.state
    case GotData(ordered, data) => PublishSelection(state, n, ty, ordered, data);
    case _ =>
  }

  method PublishSlots(state: State, slots: seq<Slot>)
    requires state.Valid()
    modifies state.conn, state.repr
    ensures state.Valid() && state.View() == PublishAll(old(state.View()), slots)
  {
    for k := 0 to |slots|
      invariant state.Valid() && state.View() == PublishAll(old(state.View()), slots[..k])
    {
      assert slots[..k + 1][..k] == slots[..k];
      PublishDeferred(state, slots[k].seat, slots[k].ty);
    }
    assert slots[..|slots|] == slots;
  }

  method PublishAllDeferred(state: State, env: Env)
    requires state.Valid() && EnvOk(env)
    modifies state.conn, state.repr
    ensures state.Valid() &&
            state.View() == PublishAll(old(state.View()), Slots(env.order(old(state.View()).seats.Keys)))
  {
    assert state.View().seats.Keys == state.seats.Keys;
    PublishSlots(state, Slots(env.order(state.seats.Keys)));
  }

  // ----- reading -----

  /** A pipe of a selection is ready. The result is `false` where the source would hit one of its
      `unreachable!()`. */
  method HandlePipe(state: State, n: SeatName, ty: SelectionType, i: nat, d: Delivery) returns (ok: bool)
    requires state.Valid() && CanRead(state.View(), n, ty, i)
    modifies state.conn, state.repr
    ensures state.Valid()
    ensures Deliver(old(state.View()), n, ty, i, d, state.settings) == if ok then Continues(state.View()) else Panicked
  {
    DeliverCases(state.View(), n, ty, i, d, state.settings);
    var verdict := ReadFrom(state, n, ty, i, d);
    ok := ActOn(state, n, ty, verdict);
  }

  /** What is done about the verdict of a reader. */
  method ActOn(state: State, n: SeatName, ty: SelectionType, verdict: Verdict) returns (ok: bool)
    requires state.Valid() && n in state.seats && state.seats[n].Cell(ty) != null &&
             state.seats[n].Cell(ty).state.GotPipes?
    modifies state.conn, state.repr
    ensures state.Valid()
    ensures ActedOn(old(state.View()), n, ty, old(state.seats[n].Cell(ty).state), verdict) ==
              if ok then Continues(state.View()) else Panicked
  {
    var cell := state.seats[n].Cell(ty);
    match verdict
    case Pending => return true;
    case Unreachable => return false;
    case Abandoned(_) =>
      ResetSelection(state, n, ty);
      return true;
    case Complete =>
      var data := cell.CollectData();
      if data.None? {
        return false;
      }
      UseData(state, n, ty, cell.state.ordered, data.value);
      return true;
  }

  ghost function ActedOn(w: World, n: SeatName, ty: SelectionType, s: Selection, verdict: Verdict): Outcome
    requires n in w.seats && s.GotPipes?
  {
    match verdict
    case Pending => Continues(w)
    case Unreachable => Panicked
    case Abandoned(_) => Continues(Switch(w, n, ty, Waiting))
    case Complete =>
      match Collect(s.reader.pipes)
      case None => Panicked
      case Some(data) => Continues(Used(w, n, ty, s.ordered, data))
  }

  /** Publishes what was read, holds it back, or gives up if nothing could be read. */
  method UseData(state: State, n: SeatName, ty: SelectionType, ordered: seq<Mime>, data: map<Mime, Bytes>)
    requires state.Valid() && n in state.seats && state.seats[n].Cell(ty) != null
    requires state.seats[n].Cell(ty).state.GotPipes? && state.seats[n].Cell(ty).state.ordered == ordered
    modifies state.conn, state.repr
    ensures state.Valid() && state.View() == Used(old(state.View()), n, ty, ordered, data)
  {
    if data == map[] {
      ResetSelection(state, n, ty);
    } else if state.seats[n].offers == map[] {
      PublishSelection(state, n, ty, ordered, data);
    } else {
      HoldBack(state, n, ty, data);
    }
  }

  /** Enters the reader of a selection and lets it take what a pipe yields. */
  method ReadFrom(state: State, n: SeatName, ty: SelectionType, i: nat, d: Delivery) returns (verdict: Verdict)
    requires state.Valid() && CanRead(state.View(), n, ty, i)
    modifies state.conn`faults, state.repr
    ensures state.Valid() && verdict == ReadStep(old(state.View()), n, ty, i, d, state.settings).verdict
    ensures state.View() == AfterRead(old(state.View()), n, ty, i, d, state.settings)
  {
    if d.Broken? {
      NoteBrokenPipe(state, n, ty, i);
    }
    verdict := ReadSelection(state, n, ty, i, d);
  }

  ghost method NoteBrokenPipe(state: State, n: SeatName, ty: SelectionType, i: nat)
    requires state.Valid() && CanRead(state.View(), n, ty, i)
    modifies state.conn`faults
    ensures state.Valid() && CanRead(state.View(), n, ty, i) && At(state.View(), n, ty) == old(At(state.View(), n, ty))
    ensures state.View() == NoteFault(old(state.View()), n, ty, old(At(state.View(), n, ty)).value.reader.pipes[i].mime)
  {
    ghost var w := state.View();
    state.conn.faults := NoteFault(w, n, ty, At(w, n, ty).value.reader.pipes[i].mime).faults;
    assert state.View().seats == w.seats;
  }

  method ReadSelection(state: State, n: SeatName, ty: SelectionType, i: nat, d: Delivery) returns (verdict: Verdict)
    requires state.Valid() && CanRead(state.View(), n, ty, i)
    modifies state.repr
    ensures state.Valid() && verdict == ReadStep(old(state.View()), n, ty, i, d, state.settings).verdict
    ensures state.View() == Put(old(state.View()), n, ty, At(old(state.View()), n, ty).value.(
                                  reader := ReadStep(old(state.View()), n, ty, i, d, state.settings).reader))
  {
    OneWakeUp(state.seats[n].Cell(ty).state.reader, i, d, state.settings);
    verdict := state.seats[n].Cell(ty).ReadPipes([Woken(i, d)], state.settings);
    state.OtherSelectionsUnchanged(Slot(n, ty));
  }

  ghost function ReadStep(w: World, n: SeatName, ty: SelectionType, i: nat, d: Delivery, st: Settings): Step
    requires CanRead(w, n, ty, i)
  {
    Wake(At(w, n, ty).value.reader, i, d, st)
  }

  ghost function AfterRead(w: World, n: SeatName, ty: SelectionType, i: nat, d: Delivery, st: Settings): World
    requires CanRead(w, n, ty, i)
  {
    var s := At(w, n, ty).value;
    Put(if d.Broken? then NoteFault(w, n, ty, s.reader.pipes[i].mime) else w, n, ty,
        s.(reader := ReadStep(w, n, ty, i, d, st).reader))
  }

  lemma PutTwice(w: World, n: SeatName, ty: SelectionType, s: Selection, s': Selection)
    requires n in w.seats
    ensures Put(Put(w, n, ty, s), n, ty, s') == Put(w, n, ty, s')
  {
    assert w.seats[n := Put(w, n, ty, s).seats[n]][n := Put(w, n, ty, s').seats[n]] ==
        w.seats[n := Put(w, n, ty, s').seats[n]];
  }

  lemma SwitchAfterPut(w: World, n: SeatName, ty: SelectionType, s: Selection)
    requires At(w, n, ty).Some? && At(w, n, ty).value.GotPipes? && s.GotPipes?
    ensures Switch(Put(w, n, ty, s), n, ty, Waiting) == Switch(w, n, ty, Waiting)
  {
    PutTwice(w, n, ty, s, Waiting);
  }

  lemma AnnounceAfterPut(w: World, n: SeatName, ty: SelectionType, s: Selection, ordered: seq<Mime>,
                         data: map<Mime, Bytes>)
    requires n in w.seats
    ensures Announce(Put(w, n, ty, s), n, ty, ordered, data) == Put(Announce(w, n, ty, ordered, data), n, ty, s)
  {
    var v := w.seats[n];
    var a, b := v.(selection := v.selection.With(ty, Some(s))), v.sources.With(ty, v.sources.At(ty) + {w.nextSource});
    assert w.seats[n := a][n := a.(sources := b)] == w.seats[n := v.(sources := b)][n := a.(sources := b)];
  }

  lemma SetClipboardAfterPut(w: World, n: SeatName, ty: SelectionType, s: Selection, ordered: seq<Mime>,
                             data: map<Mime, Bytes>)
    requires At(w, n, ty).Some? && At(w, n, ty).value.GotPipes? && s.GotPipes?
    ensures SetClipboard(Put(w, n, ty, s), n, ty, ordered, data) == SetClipboard(w, n, ty, ordered, data)
  {
    AnnounceAfterPut(w, n, ty, s, ordered, data);
    SwitchAfterPut(Announce(w, n, ty, ordered, data), n, ty, s);
  }

  lemma UsedAfterPut(w: World, n: SeatName, ty: SelectionType, s: Selection, ordered: seq<Mime>, data: map<Mime, Bytes>)
    requires At(w, n, ty).Some? && At(w, n, ty).value.GotPipes? && s.GotPipes?
    ensures Used(Put(w, n, ty, s), n, ty, ordered, data) == Used(w, n, ty, ordered, data)
  {
    SwitchAfterPut(w, n, ty, s);
    SetClipboardAfterPut(w, n, ty, s, ordered, data);
    PutTwice(w, n, ty, s, GotData(ordered, data));
  }

  /** What a wake-up leads to, from the world in which the reader has taken it in. */
  lemma DeliverCases(w: World, n: SeatName, ty: SelectionType, i: nat, d: Delivery, st: Settings)
    requires CanRead(w, n, ty, i)
    ensures var w1 := AfterRead(w, n, ty, i, d, st);
            && At(w1, n, ty).Some? && At(w1, n, ty).value.GotPipes?
            && Deliver(w, n, ty, i, d, st) ==
                ActedOn(w1, n, ty, At(w1, n, ty).value, ReadStep(w, n, ty, i, d, st).verdict)
  {
    var s, step := At(w, n, ty).value, ReadStep(w, n, ty, i, d, st);
    var w0 := if d.Broken? then NoteFault(w, n, ty, s.reader.pipes[i].mime) else w;
    assert w0.seats == w.seats;
    SwitchAfterPut(w0, n, ty, s.(reader := step.reader));
    if step.verdict.Complete? && Collect(step.reader.pipes).Some? {
      UsedAfterPut(w0, n, ty, s.(reader := step.reader), s.ordered, Collect(step.reader.pipes).value);
    }
  }

  /** Keeps the data until it is known what the offers of the seat are for. */
  method HoldBack(state: State, n: SeatName, ty: SelectionType, data: map<Mime, Bytes>)
    requires state.Valid() && n in state.seats && state.seats[n].Cell(ty) != null
    requires state.seats[n].Cell(ty).state.GotPipes?
    modifies state.repr
    ensures state.Valid()
    ensures state.View() == Put(old(state.View()), n, ty, GotData(old(state.seats[n].Cell(ty).state.ordered), data))
  {
    var cell := state.seats[n].Cell(ty);
    cell.SwitchToGotData(cell.state.ordered, data);
    state.OtherSelectionsUnchanged(Slot(n, ty));
  }
}
