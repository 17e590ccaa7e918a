/** The concurrent reader of one selection's pipes. All pipes share one byte counter. The reader
    may be dropped between any two wake-ups and entered again from the records it left behind. */
module PipeReader {
  import opened Protocol

  datatype ReadError = IoError | SizeLimitExceeded

  datatype Buffer = Unset | Filled(bytes: Bytes) | Failed(error: ReadError)

  datatype PipeRecord = PipeRecord(mime: Mime, fd: Fd, buffer: Buffer, finished: bool)

  datatype Reader = Reader(pipes: seq<PipeRecord>, bytesRead: int, succeeded: nat, failed: nat)

  /** What a read from a pipe yields once it is ready. */
  datatype Delivery = Chunk(bytes: Bytes) | Eof | Broken

  datatype Verdict = Pending | Complete | Abandoned(error: ReadError) | Unreachable

  datatype Step = Step(reader: Reader, verdict: Verdict)

  predicate AllFinished(pipes: seq<PipeRecord>) {
    forall i :: 0 <= i < |pipes| ==> pipes[i].finished
  }

  /** A reader that has just been given its pipes. */
  predicate Untouched(pipes: seq<PipeRecord>) {
    forall i :: 0 <= i < |pipes| ==> pipes[i].buffer == Unset && !pipes[i].finished
  }

  /** One wake-up of the task that reads pipe `i`, up to its next suspension: the code between two
      awaits. A task that is polled for the first time since the reader was entered gives an unset
      record an empty buffer first. */
  function Wake(r: Reader, i: nat, d: Delivery, st: Settings): Step
    requires i < |r.pipes|
  {
    var p := r.pipes[i];
    if p.finished || p.buffer.Failed? then Step(r, Unreachable)
    else
      var data := if p.buffer.Unset? then [] else p.buffer.bytes;
      match d
      case Chunk(bytes) =>
        var total := r.bytesRead + |bytes|;
        if st.Exceeds(total) then
          Step(r.(pipes := r.pipes[i := p.(buffer := Filled(data), finished := true)], bytesRead := total),
               Abandoned(SizeLimitExceeded))
        else
          Step(r.(pipes := r.pipes[i := p.(buffer := Filled(data + bytes))], bytesRead := total), Pending)
      case Eof =>
        var pipes := r.pipes[i := p.(buffer := Filled(data), finished := true)];
        Step(r.(pipes := pipes, succeeded := r.succeeded + 1),
             if AllFinished(pipes) then Complete else Pending)
      case Broken =>
        var total := r.bytesRead - |data|;
        if st.ignoreOnError then
          Step(r.(pipes := r.pipes[i := p.(buffer := Filled(data), finished := true)], bytesRead := total),
               Abandoned(IoError))
        else
          var pipes := r.pipes[i := p.(buffer := Failed(IoError), finished := true)];
          Step(r.(pipes := pipes, bytesRead := total, failed := r.failed + 1),
               if AllFinished(pipes) then Complete else Pending)
  }

  /** The data of all pipes whose read did not fail; `None` stands for the branches that the source
      marks unreachable. */
  function Collect(pipes: seq<PipeRecord>): Option<map<Mime, Bytes>> {
    if pipes == [] then Some(map[])
    else
      var last := pipes[|pipes| - 1];
      match Collect(pipes[..|pipes| - 1])
      case None => None
      case Some(data) =>
        match last.buffer
        case Filled(bytes) => Some(data[last.mime := bytes])
        case Failed(IoError) => Some(data)
        case Failed(SizeLimitExceeded) => None
        case Unset => None
  }

  // ----- invariants of the records -----

  predicate RecordOk(p: PipeRecord) {
    && (p.buffer.Unset? ==> !p.finished)
    && (p.buffer.Failed? ==> p.finished && p.buffer.error == IoError)
  }

  function Sum(pipes: seq<PipeRecord>, f: PipeRecord -> int): int {
    if pipes == [] then 0 else Sum(pipes[..|pipes| - 1], f) + f(pipes[|pipes| - 1])
  }

  function Buffered(p: PipeRecord): int {
    if p.buffer.Filled? then |p.buffer.bytes| else 0
  }

  function ReadWell(p: PipeRecord): int {
    if p.finished && p.buffer.Filled? then 1 else 0
  }

  function ReadBadly(p: PipeRecord): int {
    if p.buffer.Failed? then 1 else 0
  }

  function IsFinished(p: PipeRecord): int {
    if p.finished then 1 else 0
  }

  ghost predicate DistinctTypes(pipes: seq<PipeRecord>) {
    forall i, j :: 0 <= i < j < |pipes| ==> pipes[i].mime != pipes[j].mime
  }

  /** What holds whenever the reader is suspended. `names` is what the MIME names already cost. */
  ghost predicate ReaderOk(r: Reader, names: nat, st: Settings) {
    && DistinctTypes(r.pipes)
    && (forall i :: 0 <= i < |r.pipes| ==> RecordOk(r.pipes[i]))
    && r.bytesRead == names + Sum(r.pipes, Buffered)
    && r.succeeded == Sum(r.pipes, ReadWell)
    && r.failed == Sum(r.pipes, ReadBadly)
    && !st.Exceeds(r.bytesRead)
  }

  lemma {:induction false} SumUpdate(pipes: seq<PipeRecord>, i: nat, p: PipeRecord, f: PipeRecord -> int)
    requires i < |pipes|
    ensures Sum(pipes[i := p], f) == Sum(pipes, f) - f(pipes[i]) + f(p)
  {
    var front := pipes[..|pipes| - 1];
    if i == |pipes| - 1 {
      assert pipes[i := p][..|pipes| - 1] == front;
    } else {
      assert pipes[i := p][..|pipes| - 1] == front[i := p];
      SumUpdate(front, i, p, f);
    }
  }

  lemma {:induction false} SumBounds(pipes: seq<PipeRecord>, f: PipeRecord -> int, i: nat)
    requires forall p :: f(p) >= 0
    ensures Sum(pipes, f) >= 0
    ensures i < |pipes| ==> f(pipes[i]) <= Sum(pipes, f)
  {
    if pipes != [] {
      SumBounds(pipes[..|pipes| - 1], f, i);
    }
  }

  lemma {:induction false} SumOfFinished(pipes: seq<PipeRecord>)
    requires forall i :: 0 <= i < |pipes| ==> RecordOk(pipes[i])
    ensures Sum(pipes, ReadWell) + Sum(pipes, ReadBadly) == Sum(pipes, IsFinished) <= |pipes|
    ensures AllFinished(pipes) <==> Sum(pipes, IsFinished) == |pipes|
  {
    if pipes != [] {
      var last := |pipes| - 1;
      SumOfFinished(pipes[..last]);
      assert AllFinished(pipes) <==> AllFinished(pipes[..last]) && pipes[last].finished;
    }
  }

  lemma {:induction false} SumUntouched(pipes: seq<PipeRecord>)
    requires Untouched(pipes)
    ensures Sum(pipes, Buffered) == Sum(pipes, ReadWell) == Sum(pipes, ReadBadly) == 0
  {
    if pipes != [] {
      SumUntouched(pipes[..|pipes| - 1]);
    }
  }

  /** The counters start right. */
  lemma UntouchedReaderOk(pipes: seq<PipeRecord>, names: nat, st: Settings)
    requires Untouched(pipes) && DistinctTypes(pipes) && !st.Exceeds(names)
    ensures ReaderOk(Reader(pipes, names, 0, 0), names, st)
  {
    SumUntouched(pipes);
  }

  /** Every wake-up keeps the records, the two counters and the byte ledger in order, for as long as
      reading goes on or completes: unset implies unfinished, failed implies finished, a size-limit
      error is never stored, and the counted bytes are the names plus all buffers not in error. */
  lemma WakeKeepsReaderOk(r: Reader, i: nat, d: Delivery, names: nat, st: Settings)
    requires ReaderOk(r, names, st) && i < |r.pipes| && !r.pipes[i].finished
    ensures var s := Wake(r, i, d, st);
            && s.verdict != Unreachable
            && (s.verdict.Pending? || s.verdict.Complete? ==> ReaderOk(s.reader, names, st))
            && (s.verdict.Pending? ==> !AllFinished(s.reader.pipes))
            && (s.verdict.Complete? ==> AllFinished(s.reader.pipes))
  {
    var s := Wake(r, i, d, st);
    var p := s.reader.pipes[i];
    SumUpdate(r.pipes, i, p, Buffered);
    SumUpdate(r.pipes, i, p, ReadWell);
    SumUpdate(r.pipes, i, p, ReadBadly);
    assert s.reader.pipes == r.pipes[i := p];
    if d.Chunk? { assert !s.verdict.Abandoned? ==> !s.reader.pipes[i].finished; }
  }

  /** Taking the bytes of a broken pipe off the counter cannot underflow, and names and buffers together
      never pass the limit, not even after the chunk that trips it: that one is counted but not stored. */
  lemma NoUnderflowAndCapped(r: Reader, i: nat, d: Delivery, names: nat, st: Settings)
    requires ReaderOk(r, names, st) && i < |r.pipes|
    ensures r.pipes[i].buffer.Filled? ==> names <= r.bytesRead - |r.pipes[i].buffer.bytes|
    ensures st.limit.Some? ==> names + Sum(r.pipes, Buffered) <= st.limit.value
    ensures st.limit.Some? ==> names + Sum(Wake(r, i, d, st).reader.pipes, Buffered) <= st.limit.value
    ensures r.succeeded + r.failed == Sum(r.pipes, IsFinished)
  {
    SumBounds(r.pipes, Buffered, i);
    SumOfFinished(r.pipes);
    var p := Wake(r, i, d, st).reader.pipes[i];
    SumUpdate(r.pipes, i, p, Buffered);
    assert Wake(r, i, d, st).reader.pipes == r.pipes[i := p];
  }

  // ----- what the pipes carry -----

  /** `content[i]` is everything that is ever written to pipe `i`. */
  ghost predicate Faithful(pipes: seq<PipeRecord>, content: seq<Bytes>) {
    && |content| == |pipes|
    && forall i :: 0 <= i < |pipes| ==> RecordFaithful(pipes[i], content[i])
  }

  predicate RecordFaithful(p: PipeRecord, content: Bytes) {
    p.buffer.Filled? ==> p.buffer.bytes <= content && (p.finished ==> p.buffer.bytes == content)
  }

  /** The bytes that pipe `p` still has to deliver. */
  function Unread(p: PipeRecord, content: Bytes): Bytes
    requires RecordFaithful(p, content) && !p.buffer.Failed?
  {
    if p.buffer.Unset? then content else content[|p.buffer.bytes|..]
  }

  /** A delivery the operating system can make: at most 8192 bytes at once and in order, and end of
      file only after the last byte. A read may break at any time. */
  predicate Deliverable(p: PipeRecord, content: Bytes, d: Delivery) {
    && !p.finished
    && RecordFaithful(p, content)
    && !p.buffer.Failed?
    && match d
       case Chunk(bytes) => 0 < |bytes| <= 8192 && bytes <= Unread(p, content)
       case Eof => Unread(p, content) == []
       case Broken => true
  }

  lemma WakeKeepsFaith(r: Reader, i: nat, d: Delivery, content: seq<Bytes>, st: Settings)
    requires Faithful(r.pipes, content) && i < |r.pipes|
    requires RecordOk(r.pipes[i]) && Deliverable(r.pipes[i], content[i], d)
    ensures var s := Wake(r, i, d, st);
            s.verdict.Pending? || s.verdict.Complete? ==> Faithful(s.reader.pipes, content)
  {
    var s := Wake(r, i, d, st);
    if s.verdict.Pending? || s.verdict.Complete? {
      var p := s.reader.pipes[i];
      assert RecordFaithful(p, content[i]) by {
        if d.Chunk? && r.pipes[i].buffer.Filled? {
          var data := r.pipes[i].buffer.bytes;
          assert content[i] == data + content[i][|data|..];
        }
      }
    }
  }

  // ----- whole schedules -----

  /** One thing that happens to the reader: the task of a pipe wakes up, or the whole reader is dropped
      and entered again. The tasks that are lost and made anew then are modelled in `ReadingTasks`, which
      proves that records, counters and verdict do not show it. */
  datatype Turn = Ready(pipe: nat, delivery: Delivery) | Reenter

  /** Reads along a schedule until there is a verdict. */
  function Read(r: Reader, turns: seq<Turn>, st: Settings): Step
    decreases |turns|
  {
    if turns == [] then Step(r, Pending)
    else
      match turns[0]
      case Reenter => Read(r, turns[1..], st)
      case Ready(i, d) =>
        if i >= |r.pipes| then Read(r, turns[1..], st)
        else
          var s := Wake(r, i, d, st);
          if s.verdict.Pending? then Read(s.reader, turns[1..], st) else s
  }

  /** Every delivery of the schedule is one the pipes can make when its turn comes. */
  ghost predicate Possible(r: Reader, turns: seq<Turn>, content: seq<Bytes>, st: Settings)
    requires |content| == |r.pipes|
    decreases |turns|
  {
    turns != [] ==>
      match turns[0]
      case Reenter => Possible(r, turns[1..], content, st)
      case Ready(i, d) =>
        && i < |r.pipes|
        && Deliverable(r.pipes[i], content[i], d)
        && var s := Wake(r, i, d, st);
           s.verdict.Pending? ==> Possible(s.reader, turns[1..], content, st)
  }

  predicate NothingBreaks(turns: seq<Turn>) {
    forall k :: 0 <= k < |turns| ==> turns[k].Ready? ==> turns[k].delivery != Broken
  }

  function TotalLength(content: seq<Bytes>): nat {
    if content == [] then 0 else TotalLength(content[..|content| - 1]) + |content[|content| - 1]|
  }

  /** Each MIME type with all that was written to its pipe: the result of reading one pipe after the
      other to its end. */
  function WholeContents(pipes: seq<PipeRecord>, content: seq<Bytes>): map<Mime, Bytes>
    requires |content| == |pipes|
  {
    if pipes == [] then map[]
    else
      var last := |pipes| - 1;
      WholeContents(pipes[..last], content[..last])[pipes[last].mime := content[last]]
  }

  predicate NoneFailed(pipes: seq<PipeRecord>) {
    forall i :: 0 <= i < |pipes| ==> !pipes[i].buffer.Failed?
  }

  lemma {:induction false} BufferedWithin(pipes: seq<PipeRecord>, content: seq<Bytes>)
    requires Faithful(pipes, content)
    ensures Sum(pipes, Buffered) <= TotalLength(content)
    ensures NoneFailed(pipes) && AllFinished(pipes) && (forall i :: 0 <= i < |pipes| ==> RecordOk(pipes[i])) ==>
              Sum(pipes, Buffered) == TotalLength(content) && Collect(pipes) == Some(WholeContents(pipes, content))
  {
    if pipes != [] {
      var last := |pipes| - 1;
      BufferedWithin(pipes[..last], content[..last]);
    }
  }

  /** A chunk about to be taken is part of the total. */
  lemma {:induction false} BufferedWithChunk(pipes: seq<PipeRecord>, content: seq<Bytes>, i: nat, bytes: Bytes)
    requires Faithful(pipes, content) && i < |pipes| && Deliverable(pipes[i], content[i], Chunk(bytes))
    ensures Sum(pipes, Buffered) + |bytes| <= TotalLength(content)
  {
    var last := |pipes| - 1;
    if i == last {
      BufferedWithin(pipes[..last], content[..last]);
    } else {
      BufferedWithChunk(pipes[..last], content[..last], i, bytes);
    }
  }

  /** The verdict on pipes that do not break, said without any schedule. */
  function SequentialVerdict(content: seq<Bytes>, names: nat, st: Settings): Verdict {
    if st.limit.Some? && names + TotalLength(content) > st.limit.value then Abandoned(SizeLimitExceeded) else Complete
  }

  /** Schedule independence. Whatever the order of chunks, and wherever the reader is dropped and
      entered again, a schedule without read errors that comes to a verdict comes to the same one as
      reading each pipe to its end in turn, with the same data: no byte lost, none twice. */
  lemma {:induction false} ScheduleIndependence(r: Reader, turns: seq<Turn>, content: seq<Bytes>, names: nat,
                                                st: Settings)
    requires ReaderOk(r, names, st) && Faithful(r.pipes, content) && NoneFailed(r.pipes)
    requires Possible(r, turns, content, st) && NothingBreaks(turns)
    requires !Read(r, turns, st).verdict.Pending?
    ensures var s := Read(r, turns, st);
            && s.verdict == SequentialVerdict(content, names, st)
            && (s.verdict.Complete? ==> Collect(s.reader.pipes) == Some(WholeContents(r.pipes, content)))
    decreases |turns|
  {
    match turns[0]
    case Reenter => ScheduleIndependence(r, turns[1..], content, names, st);
    case Ready(i, d) =>
      assert d != Broken;
      var s := Wake(r, i, d, st);
      WakeKeepsReaderOk(r, i, d, names, st);
      WakeKeepsFaith(r, i, d, content, st);
      if s.verdict.Pending? {
        WholeContentsStable(r.pipes, s.reader.pipes, content);
        ScheduleIndependence(s.reader, turns[1..], content, names, st);
      } else {
        LastWake(r, i, d, content, names, st);
      }
  }

  /** The wake-up that brings the verdict. */
  lemma LastWake(r: Reader, i: nat, d: Delivery, content: seq<Bytes>, names: nat, st: Settings)
    requires ReaderOk(r, names, st) && Faithful(r.pipes, content) && NoneFailed(r.pipes)
    requires i < |r.pipes| && Deliverable(r.pipes[i], content[i], d) && d != Broken
    requires !Wake(r, i, d, st).verdict.Pending?
    ensures var s := Wake(r, i, d, st);
            && s.verdict == SequentialVerdict(content, names, st)
            && (s.verdict.Complete? ==> Collect(s.reader.pipes) == Some(WholeContents(r.pipes, content)))
  {
    var s := Wake(r, i, d, st);
    WakeKeepsReaderOk(r, i, d, names, st);
    WakeKeepsFaith(r, i, d, content, st);
    if s.verdict.Complete? {
      BufferedWithin(s.reader.pipes, content);
      WholeContentsStable(r.pipes, s.reader.pipes, content);
    } else {
      BufferedWithChunk(r.pipes, content, i, d.bytes);
    }
  }

  lemma {:induction false} WholeContentsStable(a: seq<PipeRecord>, b: seq<PipeRecord>, content: seq<Bytes>)
    requires |a| == |b| == |content|
    requires forall i :: 0 <= i < |a| ==> a[i].mime == b[i].mime
    ensures WholeContents(a, content) == WholeContents(b, content)
  {
    if a != [] {
      var last := |a| - 1;
      WholeContentsStable(a[..last], b[..last], content[..last]);
    }
  }

  /** What `WholeContents` holds: exactly one entry a pipe, and exactly its content. */
  lemma {:induction false} WholeContentsAt(pipes: seq<PipeRecord>, content: seq<Bytes>, i: nat)
    requires |content| == |pipes| && DistinctTypes(pipes)
    ensures WholeContents(pipes, content).Keys == set p | p in pipes :: p.mime
    ensures i < |pipes| ==> WholeContents(pipes, content)[pipes[i].mime] == content[i]
  {
    if pipes != [] {
      var last := |pipes| - 1;
      WholeContentsAt(pipes[..last], content[..last], i);
      assert pipes == pipes[..last] + [pipes[last]];
    }
  }

  // ----- progress -----

  /** What is left to read: one for each unfinished pipe, and one for each byte still in it. */
  ghost function Left(pipes: seq<PipeRecord>, content: seq<Bytes>): nat
    requires Faithful(pipes, content)
    requires forall i :: 0 <= i < |pipes| ==> RecordOk(pipes[i])
  {
    if pipes == [] then 0
    else
      var last := |pipes| - 1;
      Left(pipes[..last], content[..last])
      + if pipes[last].finished || pipes[last].buffer.Failed? then 0 else 1 + |Unread(pipes[last], content[last])|
  }

  lemma {:induction false} LeftUpdate(pipes: seq<PipeRecord>, content: seq<Bytes>, i: nat, p: PipeRecord)
    requires Faithful(pipes, content) && i < |pipes| && !pipes[i].finished
    requires forall k :: 0 <= k < |pipes| ==> RecordOk(pipes[k])
    requires RecordOk(p) && RecordFaithful(p, content[i]) && RecordOk(pipes[i])
    requires !p.finished ==> |Unread(p, content[i])| < |Unread(pipes[i], content[i])|
    ensures Faithful(pipes[i := p], content)
    ensures Left(pipes[i := p], content) < Left(pipes, content)
  {
    var last := |pipes| - 1;
    if i == last {
      assert pipes[i := p][..last] == pipes[..last];
    } else {
      assert pipes[i := p][..last] == pipes[..last][i := p];
      LeftUpdate(pipes[..last], content[..last], i, p);
    }
  }

  /** Reading makes progress: while a pipe is unfinished some delivery is possible, and every
      delivery that does not end the reading brings the end nearer. So no schedule of wake-ups is
      longer than `Left`, however often the reader is dropped. */
  lemma ReadingMakesProgress(r: Reader, i: nat, d: Delivery, content: seq<Bytes>, names: nat, st: Settings)
    requires ReaderOk(r, names, st) && Faithful(r.pipes, content)
    ensures !AllFinished(r.pipes) ==>
              exists k, e :: 0 <= k < |r.pipes| && Deliverable(r.pipes[k], content[k], e) && e != Broken
    ensures i < |r.pipes| && Deliverable(r.pipes[i], content[i], d) ==>
              var s := Wake(r, i, d, st);
              s.verdict.Pending? ==>
                Faithful(s.reader.pipes, content) && (forall k :: 0 <= k < |r.pipes| ==> RecordOk(s.reader.pipes[k])) &&
                Left(s.reader.pipes, content) < Left(r.pipes, content)
  {
    if !AllFinished(r.pipes) {
      var k :| 0 <= k < |r.pipes| && !r.pipes[k].finished;
      var rest := Unread(r.pipes[k], content[k]);
      assert Deliverable(r.pipes[k], content[k], if rest == [] then Eof else Chunk(rest[..1]));
    }
    if i < |r.pipes| && Deliverable(r.pipes[i], content[i], d) {
      var s := Wake(r, i, d, st);
      if s.verdict.Pending? {
        WakeKeepsReaderOk(r, i, d, names, st);
        WakeKeepsFaith(r, i, d, content, st);
        assert s.reader.pipes == r.pipes[i := s.reader.pipes[i]];
        LeftUpdate(r.pipes, content, i, s.reader.pipes[i]);
      }
    }
  }
}
