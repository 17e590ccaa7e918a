/** What can be told from the dispatched events alone, without looking at any client state. The
    theorems about the client are stated against these functions. */
module History {
  import opened Protocol

  datatype History = Start | Then(past: History, event: Event)

  function Extend(h: History, es: seq<Event>): History {
    if es == [] then h else Then(Extend(h, es[..|es| - 1]), es[|es| - 1])
  }

  predicate AddsSeat(e: Event, n: SeatName) {
    e == SeatAdded(n, true)
  }

  predicate RemovesSeat(e: Event, n: SeatName) {
    (e.GlobalRemoved? || e.Finished?) && e.seat == n
  }

  /** A selection event of one seat and type. */
  predicate Selects(e: Event, n: SeatName, ty: SelectionType) {
    e.Selected? && e.seat == n && e.ty == ty
  }

  /** The seat exists. */
  predicate Known(h: History, n: SeatName) {
    h.Then? && (AddsSeat(h.event, n) || (!RemovesSeat(h.event, n) && Known(h.past, n)))
  }

  /** The most recent selection event of a seat and type, since the seat was added. */
  function LastSelection(h: History, n: SeatName, ty: SelectionType): Option<Option<OfferId>> {
    if h.Start? || AddsSeat(h.event, n) || RemovesSeat(h.event, n) then None
    else if Selects(h.event, n, ty) && Known(h.past, n) then Some(h.event.maybeOffer)
    else LastSelection(h.past, n, ty)
  }

  /** The offers of a seat that no selection event has named yet. */
  function Unresolved(h: History, n: SeatName): set<OfferId> {
    if h.Start? || AddsSeat(h.event, n) || RemovesSeat(h.event, n) then {}
    else
      var before := Unresolved(h.past, n);
      match h.event
      case DataOffer(m, o) => if m == n && Known(h.past, n) then before + {o} else before
      case Selected(m, _, Some(o)) => if m == n then before - {o} else before
      case _ => before
  }

  /** The MIME types that were advertised for an offer while it was unresolved, in order. */
  function Advertised(h: History, o: OfferId): seq<Mime> {
    if h.Start? then []
    else
      match h.event
      case DataOffer(n, o') => if o' == o && Known(h.past, n) then [] else Advertised(h.past, o)
      case OfferedType(n, o', m) =>
        if o' == o && o in Unresolved(h.past, n) then Advertised(h.past, o) + [m] else Advertised(h.past, o)
      case _ => Advertised(h.past, o)
  }

  /** All offers ever introduced on a seat that existed at the time. */
  function Introduced(h: History): set<OfferId> {
    if h.Start? then {}
    else
      match h.event
      case DataOffer(n, o) => if Known(h.past, n) then Introduced(h.past) + {o} else Introduced(h.past)
      case _ => Introduced(h.past)
  }

  /** An offer is never introduced a second time. */
  predicate FreshOffer(h: History, e: Event) {
    e.DataOffer? ==> e.offer !in Introduced(h)
  }

  predicate FreshOffers(h: History, es: seq<Event>) {
    es != [] ==>
      FreshOffers(h, es[..|es| - 1]) && FreshOffer(Extend(h, es[..|es| - 1]), es[|es| - 1])
  }
}
