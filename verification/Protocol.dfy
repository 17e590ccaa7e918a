/** The vocabulary shared by every part of the model: object identities, the requests the client
    sends, the events it receives, and the settings it runs with. */
module Protocol {
  datatype Option<+T> = None | Some(value: T)

  type SeatName = nat
  type OfferId = nat
  type SourceId = nat
  /** Identity of the write end of a pipe: its device and inode number. */
  type Fd = nat
  type Mime = string
  type Byte = b: int | 0 <= b < 256
  type Bytes = seq<Byte>

  datatype SelectionType = Regular | Primary

  /** A pair of values, one for the regular and one for the primary selection. */
  datatype PerType<T> = PerType(regular: T, primary: T) {
    function At(ty: SelectionType): T {
      if ty.Regular? then regular else primary
    }

    function With(ty: SelectionType, x: T): PerType<T> {
      if ty.Regular? then this.(regular := x) else this.(primary := x)
    }
  }

  /** Requests, in the order in which the client writes them to the connection. */
  datatype Request =
    | Receive(offer: OfferId, mime: Mime, fd: Fd)
    | DestroyOffer(offer: OfferId)
    | CreateSource(source: SourceId)
    | OfferType(source: SourceId, mime: Mime)
    | SetSelection(seat: SeatName, ty: SelectionType, source: SourceId)
    | DestroySource(source: SourceId)
    | DestroyDevice(seat: SeatName)
    | Sync

  /** What can go wrong on our side while a send request is served. */
  datatype SendFault = NoFault | MetadataFault | HandleFault

  /** Events, in the order in which the client dispatches them. */
  datatype Event =
    | SeatAdded(seat: SeatName, bound: bool)
    | GlobalRemoved(seat: SeatName, manager: bool)
    | DataOffer(seat: SeatName, offer: OfferId)
    | OfferedType(seat: SeatName, offer: OfferId, mime: Mime)
    | Selected(seat: SeatName, ty: SelectionType, maybeOffer: Option<OfferId>)
    | Finished(seat: SeatName)
    | Send(source: SourceId, mime: Mime, fd: Fd, fault: SendFault)
    | Cancelled(source: SourceId)
    | Done

  datatype ClipboardType = OnlyRegular | OnlyPrimary | Both

  /** The settings that steer the selection machine. The regular expression is an arbitrary
      predicate on MIME types. */
  datatype Settings = Settings(
    clipboard: ClipboardType,
    limit: Option<nat>,
    ignoreOnError: bool,
    regex: Option<Mime -> bool>,
    requestIgnored: bool
  ) {
    predicate Enabled(ty: SelectionType) {
      match ty
      case Regular => clipboard != OnlyPrimary
      case Primary => clipboard != OnlyRegular
    }

    predicate Exceeds(bytes: int) {
      limit.Some? && bytes > limit.value
    }

    /** The one MIME type that is never requested, unless the workaround is switched off. */
    predicate Skips(m: Mime) {
      !requestIgnored && m == "SAVE_TARGETS"
    }
  }

  function Elements<T>(s: seq<T>): set<T> {
    set x | x in s
  }

  ghost predicate NoDuplicates<T>(s: seq<T>) {
    forall i, j :: 0 <= i < j < |s| ==> s[i] != s[j]
  }

  /** `s` lists the set `all`, each member once. */
  ghost predicate Lists<T>(s: seq<T>, all: set<T>) {
    NoDuplicates(s) && Elements(s) == all
  }
}
