/** The objects of the client, as they are updated in place: the connection, the state of one selection,
    and a seat. Each method is specified by the functions of `ClientSpec`. */
module ClientObjects {
  import opened Protocol
  import opened MimeAccounting
  import opened PipeReader
  import opened ReadingTasks
  import opened History
  import opened ClientSpec

  /** The outgoing side of the connection, with the ledgers of the run. */
  class Connection {
    var sent: seq<Request>
    var nextSource: SourceId
    var callbacks: map<SourceId, Callback>
    ghost var dispatched: History
    ghost var published: seq<Publication>
    ghost var faults: set<(OfferId, Mime)>

    constructor ()
      ensures sent == [] && nextSource == 0 && callbacks == map[]
      ensures dispatched == Start && published == [] && faults == {}
    {
      sent, nextSource, callbacks := [], 0, map[];
      dispatched, published, faults := Start, [], {};
    }

    method Send(r: Request)
      modifies this`sent
      ensures sent == old(sent) + [r]
    {
      sent := sent + [r];
    }
  }

  /** The state of one selection of a seat. */
  class SelectionCell {
    var state: Selection

    constructor ()
      ensures state == Waiting
    {
      state := Waiting;
    }

    method Destroy(conn: Connection)
      modifies conn`sent
      ensures conn.sent == old(conn.sent) + Teardown(Some(state))
    {
      match state
      case ReadMimes(offer, _, _, _, _) => conn.Send(DestroyOffer(offer));
      case _ =>
    }

    method Reset(conn: Connection)
      modifies this, conn`sent
      ensures state == Waiting && conn.sent == old(conn.sent) + Teardown(Some(old(state)))
    {
      Destroy(conn);
      state := Waiting;
    }

    method SwitchToReadMimes(conn: Connection, offer: OfferId, ordered: seq<Mime>, unique: set<Mime>, bytesRead: nat)
      modifies this, conn`sent
      ensures state == ReadMimes(offer, ordered, unique, bytesRead, map[])
      ensures conn.sent == old(conn.sent) + Teardown(Some(old(state)))
    {
      Destroy(conn);
      state := ReadMimes(offer, ordered, unique, bytesRead, map[]);
    }

    /** Leaves a state that is already something newer alone. */
    method SwitchToGotPipes(conn: Connection, pipes: seq<PipeRecord>)
      modifies this, conn`sent
      ensures conn.sent == old(conn.sent) + Teardown(Some(old(state)))
      ensures state == if old(state).ReadMimes?
                       then GotPipes(old(state).ordered, Reader(pipes, old(state).bytesRead, 0, 0))
                       else old(state)
    {
      match state
      case ReadMimes(offer, ordered, _, bytesRead, _) =>
        conn.Send(DestroyOffer(offer));
        state := GotPipes(ordered, Reader(pipes, bytesRead, 0, 0));
      case _ =>
    }

    method SwitchToGotData(ordered: seq<Mime>, data: map<Mime, Bytes>)
      modifies this
      ensures state == if old(state).GotPipes? then GotData(ordered, data) else old(state)
    {
      if state.GotPipes? {
        state := GotData(ordered, data);
      }
    }

    method SwitchToGotClear(conn: Connection)
      modifies this, conn`sent
      ensures state == GotClear && conn.sent == old(conn.sent) + Teardown(Some(old(state)))
    {
      Destroy(conn);
      state := GotClear;
    }

    method SwitchToGotIgnoredEvent(conn: Connection)
      modifies this, conn`sent
      ensures state == GotIgnoredEvent && conn.sent == old(conn.sent) + Teardown(Some(old(state)))
    {
      Destroy(conn);
      state := GotIgnoredEvent;
    }

    /** Makes a task for each pipe that is not finished. */
    method MakeTasks() returns (tasks: set<nat>)
      requires state.GotPipes?
      ensures tasks == Unfinished(state.reader.pipes)
    {
      var pipes := state.reader.pipes;
      tasks := {};
      for k := 0 to |pipes|
        invariant tasks == Unfinished(pipes[..k])
      {
        if !pipes[k].finished {
          tasks := tasks + {k};
        }
      }
      assert pipes[..|pipes|] == pipes;
    }

    /** The first poll of a task. */
    method StartTask(tasks: set<nat>, busy: set<nat>, i: nat)
      returns (waiting: set<nat>, running: set<nat>, verdict: Verdict)
      requires state.GotPipes? && i in tasks && i < |state.reader.pipes|
      modifies this
      ensures state.GotPipes? && state.ordered == old(state).ordered
      ensures Session(state.reader, waiting, running, verdict) ==
              FirstPoll(Session(old(state).reader, tasks, busy, Pending), i)
    {
      var r := state.reader;
      var p := r.pipes[i];
      if p.buffer == Unset {
        p := p.(buffer := Filled([]));
        state := state.(reader := r.(pipes := r.pipes[i := p]));
      } else if p.finished || p.buffer.Failed? {
        return tasks, busy, Unreachable;
      }
      return tasks - {i}, busy + {i}, Pending;
    }

    /** One pass through the loop of a task, and what is made of its end if it ends. */
    method ReadPipe(waiting: set<nat>, tasks: set<nat>, i: nat, delivery: Delivery, st: Settings)
      returns (running: set<nat>, verdict: Verdict)
      requires state.GotPipes? && i < |state.reader.pipes|
      modifies this
      ensures state.GotPipes? && state.ordered == old(state).ordered
      ensures Session(state.reader, waiting, running, verdict) ==
              Pass(Session(old(state).reader, waiting, tasks, Pending), i, delivery, st)
    {
      var r := state.reader;
      var p := r.pipes[i];
      running := tasks;
      if !p.buffer.Filled? {
        return running, Unreachable;
      }
      match delivery {
        case Chunk(bytes) =>
          r := r.(bytesRead := r.bytesRead + |bytes|);
          if st.limit.Some? && r.bytesRead > st.limit.value {
            p := p.(finished := true);
            state := state.(reader := r.(pipes := r.pipes[i := p]));
            return running - {i}, Abandoned(SizeLimitExceeded);
          }
          p := p.(buffer := Filled(p.buffer.bytes + bytes));
          state := state.(reader := r.(pipes := r.pipes[i := p]));
          return running, Pending;
        case Broken =>
          r := r.(bytesRead := r.bytesRead - |p.buffer.bytes|);
          p := p.(finished := true);
          if st.ignoreOnError {
            state := state.(reader := r.(pipes := r.pipes[i := p]));
            return running - {i}, Abandoned(IoError);
          }
          p := p.(buffer := Failed(IoError));
          r := r.(failed := r.failed + 1, pipes := r.pipes[i := p]);
        case Eof =>
          p := p.(finished := true);
          r := r.(succeeded := r.succeeded + 1, pipes := r.pipes[i := p]);
      }
      state := state.(reader := r);
      running := running - {i};
      return running, if waiting + running == {} then Complete else Pending;
    }

    /** Reads all pipes, from whatever records an earlier, dropped call has left behind, along a schedule
        of polls. Each time the call is dropped its tasks are lost, and the next call makes them anew.
        When the schedule runs out without a verdict, the call is dropped too. */
    method ReadPipes(polls: seq<TaskEvent>, st: Settings) returns (verdict: Verdict)
      requires state.GotPipes?
      modifies this
      ensures state.GotPipes? && state.ordered == old(state).ordered
      ensures var t := RunTasks(Enter(old(state).reader), polls, st);
              Step(state.reader, verdict) == Step(t.reader, t.verdict)
    {
      ghost var whole := RunTasks(Enter(state.reader), polls, st);
      var waiting := MakeTasks();
      var running := {};
      verdict := if waiting == {} then Complete else Pending;
      var k := 0;
      while k < |polls| && verdict == Pending
        invariant k <= |polls| && state.GotPipes? && state.ordered == old(state).ordered
        invariant whole == RunTasks(Session(state.reader, waiting, running, verdict), polls[k..], st)
      {
        assert polls[k..][0] == polls[k] && polls[k..][1..] == polls[k + 1..];
        var x := polls[k];
        k := k + 1;
        if x.Dropped? {
          waiting := MakeTasks();
          running := {};
          verdict := if waiting == {} then Complete else Pending;
        } else if x.pipe < |state.reader.pipes| {
          var i := x.pipe;
          if i in waiting {
            waiting, running, verdict := StartTask(waiting, running, i);
          }
          if x.Woken? && verdict == Pending && i in running {
            running, verdict := ReadPipe(waiting, running, i, x.delivery, st);
          }
        }
      }
    }

    /** Gathers the data of all pipes that were read without error. `None` stands for the two branches
        that cannot be reached. */
    method CollectData() returns (data: Option<map<Mime, Bytes>>)
      requires state.GotPipes?
      ensures data == Collect(state.reader.pipes)
    {
      var pipes := state.reader.pipes;
      var gathered: map<Mime, Bytes> := map[];
      for k := 0 to |pipes|
        invariant Collect(pipes[..k]) == Some(gathered)
      {
        assert pipes[..k + 1][..k] == pipes[..k];
        match pipes[k].buffer
        case Filled(bytes) => gathered := gathered[pipes[k].mime := bytes];
        case Failed(IoError) =>
        case Failed(SizeLimitExceeded) =>
          CollectStuck(pipes, k);
          return None;
        case Unset =>
          CollectStuck(pipes, k);
          return None;
      }
      assert pipes[..|pipes|] == pipes;
      return Some(gathered);
    }
  }

  /** A record that is neither filled nor failed by a read error spoils the collection. */
  lemma {:induction false} CollectStuck(pipes: seq<PipeRecord>, k: nat)
    requires k < |pipes| && (pipes[k].buffer.Unset? || pipes[k].buffer == Failed(SizeLimitExceeded))
    ensures Collect(pipes) == None
  {
    if k < |pipes| - 1 {
      CollectStuck(pipes[..|pipes| - 1], k);
    }
  }

  /** A seat with its table of unresolved offers, its selections and its data sources. */
  class Seat {
    const name: SeatName
    var offers: map<OfferId, Offer>
    const regular: SelectionCell?
    const primary: SelectionCell?
    var gotNewRegular: bool
    var gotNewPrimary: bool
    var regularSources: set<SourceId>
    var primarySources: set<SourceId>
    ghost const repr: set<object>

    constructor (n: SeatName, st: Settings)
      ensures name == n && fresh(repr) && Valid() && View() == NewSeat(st)
    {
      name := n;
      offers, gotNewRegular, gotNewPrimary, regularSources, primarySources := map[], false, false, {}, {};
      var r: SelectionCell?, p: SelectionCell? := null, null;
      if st.Enabled(Regular) { r := new SelectionCell(); }
      if st.Enabled(Primary) { p := new SelectionCell(); }
      regular, primary := r, p;
      var cells: set<object> := {};
      if r != null { cells := cells + {r}; }
      if p != null { cells := cells + {p}; }
      repr := {this} + cells;
    }

    ghost predicate Valid() {
      && this in repr
      && (regular != null ==> regular in repr)
      && (primary != null ==> primary in repr)
      && (regular != null ==> regular != primary)
    }

    /** The seat as a value. */
    ghost function View(): SeatView
      requires Valid()
      reads repr
    {
      SeatView(offers,
               PerType(if regular == null then None else Some(regular.state),
                       if primary == null then None else Some(primary.state)),
               PerType(gotNewRegular, gotNewPrimary),
               PerType(regularSources, primarySources))
    }

    function Cell(ty: SelectionType): (c: SelectionCell?)
      requires Valid()
      ensures c != null ==> c in repr
    {
      if ty.Regular? then regular else primary
    }

    function Sources(ty: SelectionType): set<SourceId>
      reads this
    {
      if ty.Regular? then regularSources else primarySources
    }

    method SetGotNew(ty: SelectionType, b: bool)
      requires Valid()
      modifies this
      ensures View() == old(View()).(gotNew := old(View()).gotNew.With(ty, b))
    {
      match ty
      case Regular => gotNewRegular := b;
      case Primary => gotNewPrimary := b;
    }

    method ClearGotNew()
      requires Valid()
      modifies this
      ensures View() == old(View()).(gotNew := PerType(false, false))
    {
      gotNewRegular, gotNewPrimary := false, false;
    }

    method SetSources(ty: SelectionType, ss: set<SourceId>)
      requires Valid()
      modifies this
      ensures View() == old(View()).(sources := old(View()).sources.With(ty, ss))
    {
      match ty
      case Regular => regularSources := ss;
      case Primary => primarySources := ss;
    }

    /** A new offer, of a selection type that is still unknown. */
    method AddOffer(conn: Connection, o: OfferId)
      requires Valid()
      modifies this, conn`sent
      ensures View() == old(View()).(offers := old(View()).offers[o := NEW_OFFER])
      ensures conn.sent == old(conn.sent) + if o in old(View()).offers then [DestroyOffer(o)] else []
    {
      var present := o in offers;
      offers := offers[o := NEW_OFFER];
      if present {
        conn.Send(DestroyOffer(o));
      }
    }

    /** One more MIME type of an unresolved offer. */
    method AddType(o: OfferId, m: Mime, st: Settings)
      requires Valid() && o in offers
      modifies this
      ensures View() == old(View()).(offers := old(View()).offers[o := Advertise(old(View()).offers[o], m, st)])
    {
      var offer := offers[o];
      if offer.exceeded {
        assert offers == offers[o := offer];
        return;
      }
      if m !in offer.unique {
        offer := offer.(bytesRead := offer.bytesRead + |m|);
        if st.limit.Some? && offer.bytesRead > st.limit.value {
          offers := offers[o := offer.(exceeded := true)];
          return;
        }
        offer := offer.(unique := offer.unique + {m});
      }
      offers := offers[o := offer.(ordered := offer.ordered + [m])];
    }

    /** The selection of type `ty` is now `maybe`. */
    method Select(conn: Connection, ty: SelectionType, maybe: Option<OfferId>, st: Settings)
      requires Valid()
      modifies repr, conn`sent
      ensures View() == SelectedView(old(View()), ty, maybe, st)
      ensures conn.sent == old(conn.sent) + SelectedRequests(old(View()), ty, maybe, st)
    {
      var offer: Option<Offer> := None;
      if maybe.Some? && maybe.value in offers {
        offer := Some(offers[maybe.value]);
        offers := offers - {maybe.value};
      }
      var cell := Cell(ty);
      if cell == null {
        // this selection type is of no interest
        if offer.Some? {
          conn.Send(DestroyOffer(maybe.value));
        }
        return;
      }
      SetGotNew(ty, true);
      if offer.None? {
        cell.SwitchToGotClear(conn);
        return;
      }
      var ignored := IsIgnored(offer.value, st);
      if ignored {
        cell.SwitchToGotIgnoredEvent(conn);
        conn.Send(DestroyOffer(maybe.value));
        return;
      }
      cell.SwitchToReadMimes(conn, maybe.value, offer.value.ordered, offer.value.unique, offer.value.bytesRead);
    }

    /** A data source is cancelled: destroyed, unless that has happened already. */
    method DropSource(conn: Connection, ty: SelectionType, s: SourceId)
      requires Valid()
      modifies this, conn`sent
      ensures View() == if s !in old(View()).sources.At(ty) then old(View())
                        else old(View()).(sources := old(View()).sources.With(ty, old(View()).sources.At(ty) - {s}))
      ensures conn.sent == old(conn.sent) + if s in old(View()).sources.At(ty) then [DestroySource(s)] else []
    {
      if s in Sources(ty) {
        SetSources(ty, Sources(ty) - {s});
        conn.Send(DestroySource(s));
      }
    }

    /** Notes that a pipe end came back to us, if it belongs to the offer that is being looked at. */
    method MarkOwn(ty: SelectionType, fd: Fd) returns (own: bool)
      requires Valid()
      modifies repr
      ensures own == IsOwnPipe(old(View()), ty, fd)
      ensures View() == if own then MarkedView(old(View()), ty, fd) else old(View())
    {
      var cell := Cell(ty);
      if cell == null || !cell.state.ReadMimes? || fd !in cell.state.fds {
        return false;
      }
      cell.state := cell.state.(fds := cell.state.fds[fd := true]);
      return true;
    }

    /** Destroys every object of the seat, in the order in which its tables are iterated. */
    method Destroy(conn: Connection, env: Env)
      requires Valid() && EnvOk(env)
      modifies conn`sent
      ensures conn.sent == old(conn.sent) + SeatTeardown(name, old(View()), env)
    {
      ghost var before, v := conn.sent, View();
      DestroyEach(conn, env.order(offers.Keys), true);
      if regular != null { regular.Destroy(conn); }
      if primary != null { primary.Destroy(conn); }
      DestroyEach(conn, env.order(regularSources), false);
      DestroyEach(conn, env.order(primarySources), false);
      conn.Send(DestroyDevice(name));
      TeardownInOrder(before, DestroyOffers(env.order(v.offers.Keys)), Teardown(v.selection.regular),
                      Teardown(v.selection.primary), DestroySources(env.order(v.sources.regular)),
                      DestroySources(env.order(v.sources.primary)), [DestroyDevice(name)]);
    }
  }

  /** Walks through the MIME types of an offer until one is not wanted. */
  method IsIgnored(offer: Offer, st: Settings) returns (ignored: bool)
    ensures ignored == ShouldIgnore(offer, st)
  {
    if offer.exceeded || offer.unique == {} {
      return true;
    }
    if st.regex.Some? {
      var left := offer.unique;
      while left != {}
        invariant left <= offer.unique
        invariant forall m :: m in offer.unique - left ==> st.regex.value(m)
      {
        var m :| m in left;
        if !st.regex.value(m) {
          return true;
        }
        left := left - {m};
      }
    }
    return false;
  }

  lemma TeardownInOrder(s: seq<Request>, a: seq<Request>, b: seq<Request>, c: seq<Request>, d: seq<Request>,
                        e: seq<Request>, f: seq<Request>)
    ensures s + a + b + c + d + e + f == s + (a + b + c + d + e + f)
  {
  }

  /** Sends a destroy request for each of the listed offers or sources. */
  method DestroyEach(conn: Connection, ids: seq<nat>, areOffers: bool)
    modifies conn`sent
    ensures conn.sent == old(conn.sent) + if areOffers then DestroyOffers(ids) else DestroySources(ids)
  {
    ghost var all := if areOffers then DestroyOffers(ids) else DestroySources(ids);
    for k := 0 to |ids|
      invariant conn.sent == old(conn.sent) + all[..k]
    {
      conn.Send(if areOffers then DestroyOffer(ids[k]) else DestroySource(ids[k]));
      assert all[..k + 1] == all[..k] + [all[k]];
    }
    assert all[..|ids|] == all;
  }
}
