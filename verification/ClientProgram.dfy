/** The client as a program: callbacks, resolution loop, reading, publication and main loop, working on
    the objects of `ClientObjects`. Every method is proved to do what `ClientSpec` says. */
module ClientProgram {
  import opened Protocol
  import opened History
  import opened ClientSpec
  import opened ClientObjects

  function WithSelection(v: SeatView, ty: SelectionType, s: Selection): SeatView {
    v.(selection := v.selection.With(ty, Some(s)))
  }

  class State {
    const settings: Settings
    const conn: Connection
    var seats: map<SeatName, Seat>
    var removedManager: bool
    var writes: seq<WriteJob>
    /** The seats and their selections, present and past. */
    ghost var repr: set<object>

    constructor (st: Settings)
      ensures Valid() && settings == st && View() == INITIAL.world
      ensures fresh(conn) && fresh(repr)
    {
      settings := st;
      conn := new Connection();
      seats, removedManager, writes, repr := map[], false, [], {};
    }

    ghost predicate Valid()
      reads this`seats, this`repr
    {
      && this !in repr && conn !in repr
      && (forall n :: n in seats ==> seats[n].Valid() && seats[n].name == n && seats[n].repr <= repr)
      && (forall m, n :: m in seats && n in seats && m != n ==> seats[m].repr !! seats[n].repr)
    }

    ghost function SeatViews(): map<SeatName, SeatView>
      requires Valid()
      reads this`seats, this`repr, repr
    {
      map n | n in seats :: seats[n].View()
    }

    /** The state and its ledgers as a value. */
    ghost function View(): World
      requires Valid()
      reads this, conn, repr
    {
      World(SeatViews(), removedManager, conn.nextSource, conn.callbacks, writes,
            conn.sent, conn.dispatched, conn.published, conn.faults)
    }

    /** Seats do not share objects: what happens inside one leaves the others alone. */
    twostate lemma OtherSeatsUnchanged(n: SeatName)
      requires old(Valid()) && Valid() && n in seats && seats == old(seats) && repr == old(repr)
      requires forall o :: o in repr && o !in seats[n].repr ==> unchanged(o)
      ensures SeatViews() == old(SeatViews())[n := seats[n].View()]
    {
      forall m | m in seats && m != n ensures seats[m].View() == old(seats[m].View()) {
        assert seats[m].repr !! seats[n].repr;
        assert forall o :: o in seats[m].repr ==> unchanged(o);
      }
    }

    /** What happens to one selection leaves everything else alone. */
    twostate lemma OtherSelectionsUnchanged(slot: Slot)
      requires old(Valid()) && Valid() && slot.seat in seats && seats == old(seats) && repr == old(repr)
      requires seats[slot.seat].Cell(slot.ty) != null
      requires forall o :: o in repr && o != seats[slot.seat].Cell(slot.ty) ==> unchanged(o)
      ensures SeatViews() == old(SeatViews())[slot.seat :=
                               WithSelection(old(SeatViews())[slot.seat], slot.ty,
                                             seats[slot.seat].Cell(slot.ty).state)]
    {
      OtherSeatsUnchanged(slot.seat);
    }

    twostate lemma SeatsForgotten(ns: set<SeatName>)
      requires old(Valid()) && Valid() && seats == old(seats) - ns && repr == old(repr)
      requires forall o :: o in repr ==> unchanged(o)
      ensures SeatViews() == old(SeatViews()) - ns
    {
      forall m | m in seats ensures seats[m].View() == old(seats[m].View()) {
        assert forall o :: o in seats[m].repr ==> unchanged(o);
      }
    }

    twostate lemma SeatInserted(n: SeatName)
      requires old(Valid()) && Valid() && old(repr) <= repr
      requires n in seats && n !in old(seats) && old(seats).Keys <= seats.Keys
      requires forall m :: m in seats && m != n ==> m in old(seats) && seats[m] == old(seats)[m]
      requires forall o :: o in old(repr) ==> unchanged(o)
      ensures SeatViews() == old(SeatViews())[n := seats[n].View()]
    {
      forall m | m in seats && m != n ensures seats[m].View() == old(seats[m].View()) {
        assert forall o :: o in seats[m].repr ==> unchanged(o);
      }
    }

    // ----- registry events -----

    method RemoveSeat(n: SeatName, env: Env) returns (found: bool)
      requires Valid() && EnvOk(env)
      modifies this`seats, conn`sent
      ensures Valid() && View() == ClientSpec.RemoveSeat(old(View()), n, env)
      ensures found == (n in old(seats)) && seats == old(seats) - {n}
    {
      if n !in seats {
        assert seats - {n} == seats;
        return false;
      }
      var seat := seats[n];
      seats := seats - {n};
      seat.Destroy(conn, env);
      SeatsForgotten({n});
      return true;
    }

    /** Enters a seat that does not share objects with the others. */
    method InsertSeat(n: SeatName, seat: Seat)
      requires Valid() && seat.Valid() && seat.name == n && n !in seats && seat.repr !! repr
      requires this !in seat.repr && conn !in seat.repr
      modifies this`seats, this`repr
      ensures Valid() && repr == old(repr) + seat.repr
      ensures View() == old(View()).(seats := old(SeatViews())[n := seat.View()])
    {
      seats, repr := seats[n := seat], repr + seat.repr;
      assert forall m :: m in seats ==> m == n || (m in old(seats) && seats[m] == old(seats)[m]);
      assert forall m :: m in old(seats) ==> old(seats)[m].repr <= old(repr);
      SeatInserted(n);
    }

    method OnSeatAdded(n: SeatName, bound: bool, env: Env)
      requires Valid() && EnvOk(env)
      modifies this`seats, this`repr, conn`sent
      ensures Valid() && View() == ClientSpec.OnSeatAdded(old(View()), n, bound, settings, env)
      ensures old(repr) <= repr && fresh(repr - old(repr))
    {
      if !bound {
        return;
      }
      var seat := new Seat(n, settings);
      var replaced := RemoveSeat(n, env);
      InsertSeat(n, seat);
    }

    method OnGlobalRemoved(n: SeatName, manager: bool, env: Env)
      requires Valid() && EnvOk(env)
      modifies this`seats, this`removedManager, conn`sent
      ensures Valid() && View() == ClientSpec.OnGlobalRemoved(old(View()), n, manager, env)
    {
      var found := RemoveSeat(n, env);
      if !found && manager {
        NoteRemovedManager();
      }
    }

    method NoteRemovedManager()
      requires Valid()
      modifies this`removedManager
      ensures Valid() && View() == old(View()).(managerRemoved := true)
    {
      ghost var w := View();
      removedManager := true;
      assert SeatViews() == w.seats;
    }

    // ----- device events -----

    method OnDataOffer(n: SeatName, o: OfferId)
      requires Valid()
      modifies repr, conn`sent
      ensures View() == ClientSpec.OnDataOffer(old(View()), n, o)
    {
      if n !in seats {
        return;
      }
      seats[n].AddOffer(conn, o);
      OtherSeatsUnchanged(n);
    }

    method OnSelected(n: SeatName, ty: SelectionType, maybe: Option<OfferId>)
      requires Valid()
      modifies repr, conn`sent
      ensures View() == ClientSpec.OnSelected(old(View()), n, ty, maybe, settings)
    {
      if n !in seats {
        return;
      }
      seats[n].Select(conn, ty, maybe, settings);
      OtherSeatsUnchanged(n);
    }

    method OnFinished(n: SeatName, env: Env)
      requires Valid() && EnvOk(env)
      modifies this`seats, conn`sent
      ensures Valid() && View() == ClientSpec.RemoveSeat(old(View()), n, env)
    {
      var found := RemoveSeat(n, env);
    }

    // ----- offer events -----

    method OnOfferedType(n: SeatName, o: OfferId, m: Mime)
      requires Valid()
      modifies repr
      ensures View() == ClientSpec.OnOfferedType(old(View()), n, o, m, settings)
    {
      if n !in seats || o !in seats[n].offers {
        return;
      }
      seats[n].AddType(o, m, settings);
      OtherSeatsUnchanged(n);
    }

    // ----- source events -----

    /** Whether the pipe end of a send request is one of our own. If so, that is noted. */
    method MarkOwn(n: SeatName, ty: SelectionType, fd: Fd) returns (own: bool)
      requires Valid()
      modifies repr
      ensures own == (n in seats && IsOwnPipe(old(View()).seats[n], ty, fd))
      ensures !own ==> View() == old(View())
      ensures own ==> View() == old(View()).(
                                  seats := old(View()).seats[n := MarkedView(old(View()).seats[n], ty, fd)])
    {
      if n !in seats {
        return false;
      }
      own := seats[n].MarkOwn(ty, fd);
      OtherSeatsUnchanged(n);
    }

    method OnSend(s: SourceId, m: Mime, fd: Fd, fault: SendFault)
      requires Valid()
      modifies this`writes, repr
      ensures Valid() && View() == ClientSpec.OnSend(old(View()), s, m, fd, fault)
    {
      if s !in conn.callbacks || fault.MetadataFault? {
        return;
      }
      var cb := conn.callbacks[s];
      var own := MarkOwn(cb.seat, cb.ty, fd);
      if own || m !in cb.data || fault.HandleFault? {
        return;
      }
      writes := writes + [WriteJob(s, m, fd, cb.data[m])];
    }

    method OnCancelled(s: SourceId)
      requires Valid()
      modifies repr, conn`sent
      ensures View() == ClientSpec.OnCancelled(old(View()), s)
    {
      if s !in conn.callbacks || conn.callbacks[s].seat !in seats {
        return;
      }
      var cb := conn.callbacks[s];
      DropSourceOf(cb.seat, cb.ty, s);
    }

    method DropSourceOf(n: SeatName, ty: SelectionType, s: SourceId)
      requires Valid() && n in seats
      modifies repr, conn`sent
      ensures var w := old(View());
              var v := w.seats[n];
              View() == if s !in v.sources.At(ty) then w
                        else Emit(w.(seats := w.seats[n := v.(sources := v.sources.With(ty, v.sources.At(ty) - {s}))]),
                                  [DestroySource(s)])
    {
      ghost var w := View();
      assert w.out + [] == w.out;
      assert w.seats[n := w.seats[n]] == w.seats;
      seats[n].DropSource(conn, ty, s);
      OtherSeatsUnchanged(n);
      assert SeatViews() == w.seats[n := seats[n].View()];
    }

    // ----- dispatching -----

    method HandleOne(e: Event, env: Env)
      requires Valid() && EnvOk(env)
      modifies this, conn`sent, repr
      ensures Valid() && View() == Handle(old(View()), e, settings, env)
      ensures old(repr) <= repr && fresh(repr - old(repr))
    {
      match e {
        case SeatAdded(n, bound) => OnSeatAdded(n, bound, env);
        case GlobalRemoved(n, manager) => OnGlobalRemoved(n, manager, env);
        case DataOffer(n, o) => OnDataOffer(n, o);
        case OfferedType(n, o, m) => OnOfferedType(n, o, m);
        case Selected(n, ty, maybe) => OnSelected(n, ty, maybe);
        case Finished(n) => OnFinished(n, env);
        case Send(s, m, fd, fault) => OnSend(s, m, fd, fault);
        case Cancelled(s) => OnCancelled(s);
        case Done =>
      }
    }

    method DispatchOne(e: Event, env: Env)
      requires Valid() && EnvOk(env)
      modifies this, conn, repr
      ensures Valid() && View() == Dispatch(old(View()), e, settings, env)
      ensures old(repr) <= repr && fresh(repr - old(repr))
    {
      HandleOne(e, env);
      conn.dispatched := Then(conn.dispatched, e);
    }

    // ----- the flags of the seats -----

    method ClearFlagsOf(n: SeatName)
      requires Valid() && n in seats
      modifies repr
      ensures View() == old(View()).(
                          seats := old(View()).seats[n := old(View()).seats[n].(gotNew := PerType(false, false))])
    {
      seats[n].ClearGotNew();
      OtherSeatsUnchanged(n);
    }

    method AnyGotNew() returns (any: bool)
      requires Valid()
      ensures any == AnyFlag(View())
    {
      var left := seats.Keys;
      while left != {}
        invariant left <= seats.Keys
        invariant forall n :: n in seats.Keys - left ==> !seats[n].gotNewRegular && !seats[n].gotNewPrimary
      {
        var n :| n in left;
        if seats[n].gotNewRegular || seats[n].gotNewPrimary {
          assert View().seats[n].gotNew.regular || View().seats[n].gotNew.primary;
          return true;
        }
        left := left - {n};
      }
      assert forall n :: n in View().seats ==> !View().seats[n].gotNew.regular && !View().seats[n].gotNew.primary;
      return false;
    }
  }
}
