/** The tasks behind the reader. Entering it makes one task for each pipe that is not finished; they are
    lost when it is dropped, and made anew from the records alone when it is entered again. */
module ReadingTasks {
  import opened Protocol
  import opened PipeReader

  /** One stay in the reader: tasks that have been made but not polled yet, and tasks that wait for
      their pipe. A panic is the verdict `Unreachable`. */
  datatype Session = Session(reader: Reader, waiting: set<nat>, running: set<nat>, verdict: Verdict) {
    predicate Lives(i: nat) {
      i in waiting || i in running
    }
  }

  /** What happens to a session: a task is polled for the first time and finds nothing to read, or a task
      is polled when its pipe is ready, or the session is dropped and the reader entered again. */
  datatype TaskEvent = Started(pipe: nat) | Woken(pipe: nat, delivery: Delivery) | Dropped

  function Unfinished(pipes: seq<PipeRecord>): set<nat> {
    set i: nat | i < |pipes| && !pipes[i].finished
  }

  lemma NoneUnfinished(pipes: seq<PipeRecord>)
    ensures AllFinished(pipes) <==> Unfinished(pipes) == {}
  {
    if !AllFinished(pipes) {
      var i: nat :| i < |pipes| && !pipes[i].finished;
      assert i in Unfinished(pipes);
    }
  }

  function Enter(r: Reader): Session {
    var tasks := Unfinished(r.pipes);
    Session(r, tasks, {}, if tasks == {} then Complete else Pending)
  }

  /** What a task does before it first reads. */
  function FirstPoll(t: Session, i: nat): Session
    requires i in t.waiting && i < |t.reader.pipes|
  {
    var p := t.reader.pipes[i];
    var started := t.(waiting := t.waiting - {i}, running := t.running + {i});
    if p.buffer.Unset? then started.(reader := Update(t.reader, i, p.(buffer := Filled([]))))
    else if p.finished || p.buffer.Failed? then t.(verdict := Unreachable)
    else started
  }

  function Update(r: Reader, i: nat, p: PipeRecord): Reader
    requires i < |r.pipes|
  {
    r.(pipes := r.pipes[i := p])
  }

  /** One pass through the loop of a task. */
  function Pass(t: Session, i: nat, d: Delivery, st: Settings): Session
    requires i < |t.reader.pipes|
  {
    var r, p := t.reader, t.reader.pipes[i];
    match p.buffer
    case Filled(data) => (
      match d
      case Chunk(bytes) =>
        var total := r.bytesRead + |bytes|;
        if st.Exceeds(total) then
          t.(reader := Update(r, i, p.(finished := true)).(bytesRead := total), running := t.running - {i},
             verdict := Abandoned(SizeLimitExceeded))
        else
          t.(reader := Update(r, i, p.(buffer := Filled(data + bytes))).(bytesRead := total))
      case Eof =>
        WithoutTask(t, i, Update(r, i, p.(finished := true)).(succeeded := r.succeeded + 1))
      case Broken =>
        var r1 := Update(r, i, p.(finished := true)).(bytesRead := r.bytesRead - |data|);
        if st.ignoreOnError then
          t.(reader := r1, running := t.running - {i}, verdict := Abandoned(IoError))
        else
          WithoutTask(t, i, Update(r1, i, r1.pipes[i].(buffer := Failed(IoError))).(failed := r.failed + 1)))
    case _ => t.(verdict := Unreachable)
  }

  /** The session is over when its last task is. */
  function WithoutTask(t: Session, i: nat, r: Reader): Session {
    var running := t.running - {i};
    Session(r, t.waiting, running, if t.waiting + running == {} then Complete else Pending)
  }

  function Serve(t: Session, x: TaskEvent, st: Settings): Session {
    match x
    case Dropped => Enter(t.reader)
    case Started(i) => if i in t.waiting && i < |t.reader.pipes| then FirstPoll(t, i) else t
    case Woken(i, d) =>
      var s := if i in t.waiting && i < |t.reader.pipes| then FirstPoll(t, i) else t;
      if s.verdict.Pending? && i in s.running && i < |s.reader.pipes| then Pass(s, i, d, st) else s
  }

  function RunTasks(t: Session, polls: seq<TaskEvent>, st: Settings): Session
    decreases |polls|
  {
    if polls == [] || !t.verdict.Pending? then t else RunTasks(Serve(t, polls[0], st), polls[1..], st)
  }

  // ----- what every session keeps -----

  ghost predicate RecordsOk(pipes: seq<PipeRecord>) {
    forall i :: 0 <= i < |pipes| ==> RecordOk(pipes[i])
  }

  /** There is a task for exactly the unfinished pipes, and those that have been polled have a buffer. */
  ghost predicate SessionOk(t: Session) {
    && RecordsOk(t.reader.pipes)
    && (t.verdict.Pending? || t.verdict.Complete? ==>
          && t.waiting !! t.running
          && t.waiting + t.running == Unfinished(t.reader.pipes)
          && (forall i :: i in t.running ==> t.reader.pipes[i].buffer.Filled?)
          && (t.verdict.Complete? <==> Unfinished(t.reader.pipes) == {}))
  }

  lemma EnterOk(r: Reader)
    requires RecordsOk(r.pipes)
    ensures SessionOk(Enter(r)) && Enter(r).verdict != Unreachable
  {
  }

  lemma FirstPollOk(t: Session, i: nat)
    requires SessionOk(t) && t.verdict.Pending? && i in t.waiting
    ensures SessionOk(FirstPoll(t, i)) && FirstPoll(t, i).verdict.Pending? && i in FirstPoll(t, i).running
  {
    var s := FirstPoll(t, i);
    assert Unfinished(s.reader.pipes) == Unfinished(t.reader.pipes);
  }

  lemma PassOk(t: Session, i: nat, d: Delivery, st: Settings)
    requires SessionOk(t) && t.verdict.Pending? && i in t.running
    ensures var s := Pass(t, i, d, st);
            && s.verdict != Unreachable
            && (!s.verdict.Abandoned? ==> SessionOk(s))
  {
    var s := Pass(t, i, d, st);
    if s.reader.pipes[i].finished {
      assert Unfinished(s.reader.pipes) == Unfinished(t.reader.pipes) - {i};
    } else {
      assert Unfinished(s.reader.pipes) == Unfinished(t.reader.pipes);
    }
  }

  /** No poll leads into a panic, and every poll keeps tasks and records in step. */
  lemma ServeOk(t: Session, x: TaskEvent, st: Settings)
    requires SessionOk(t) && t.verdict.Pending?
    ensures var s := Serve(t, x, st);
            && s.verdict != Unreachable
            && (!s.verdict.Abandoned? ==> SessionOk(s))
  {
    match x
    case Dropped => EnterOk(t.reader);
    case Started(i) =>
      if i in t.waiting { FirstPollOk(t, i); }
    case Woken(i, d) =>
      if i in t.waiting { FirstPollOk(t, i); }
      var s := if i in t.waiting then FirstPoll(t, i) else t;
      if i in s.running { PassOk(s, i, d, st); }
  }

  /** Whatever is polled and however often the reader is dropped, the panicking branches of the tasks are
      not reached. */
  lemma {:induction false} TasksNeverPanic(t: Session, polls: seq<TaskEvent>, st: Settings)
    requires SessionOk(t) && t.verdict != Unreachable
    ensures RunTasks(t, polls, st).verdict != Unreachable
    ensures var s := RunTasks(t, polls, st); !s.verdict.Abandoned? ==> SessionOk(s)
    decreases |polls|
  {
    if polls != [] && t.verdict.Pending? {
      ServeOk(t, polls[0], st);
      var s := Serve(t, polls[0], st);
      if s.verdict.Abandoned? {
        assert RunTasks(s, polls[1..], st) == s;
      } else {
        TasksNeverPanic(s, polls[1..], st);
      }
    }
  }

  // ----- being dropped is invisible -----

  /** The same reading, although different tasks may have been polled already. */
  ghost predicate SameReading(t: Session, u: Session) {
    t.reader == u.reader && t.verdict == u.verdict
  }

  lemma ServeAlike(t: Session, u: Session, x: TaskEvent, st: Settings)
    requires SessionOk(t) && SessionOk(u) && SameReading(t, u) && t.verdict.Pending?
    ensures SameReading(Serve(t, x, st), Serve(u, x, st))
  {
    if !x.Dropped? {
      var i := x.pipe;
      assert t.Lives(i) <==> i in Unfinished(t.reader.pipes);
      assert u.Lives(i) <==> i in Unfinished(t.reader.pipes);
      if t.Lives(i) {
        var s := if i in t.waiting then FirstPoll(t, i) else t;
        var v := if i in u.waiting then FirstPoll(u, i) else u;
        if i in t.waiting { FirstPollOk(t, i); }
        if i in u.waiting { FirstPollOk(u, i); }
        assert i in s.running && i in v.running && SessionOk(s) && SessionOk(v);
        if x.Woken? {
          assert SameReading(s, v);
          PassAlike(s, v, i, x.delivery, st);
        }
      }
    }
  }

  lemma PassAlike(t: Session, u: Session, i: nat, d: Delivery, st: Settings)
    requires SessionOk(t) && SessionOk(u) && SameReading(t, u) && t.verdict.Pending?
    requires i in t.running && i in u.running
    ensures SameReading(Pass(t, i, d, st), Pass(u, i, d, st))
  {
    assert t.waiting + (t.running - {i}) == Unfinished(t.reader.pipes) - {i};
    assert u.waiting + (u.running - {i}) == Unfinished(t.reader.pipes) - {i};
  }

  lemma {:induction false} RunAlike(t: Session, u: Session, polls: seq<TaskEvent>, st: Settings)
    requires SessionOk(t) && SessionOk(u) && SameReading(t, u)
    ensures SameReading(RunTasks(t, polls, st), RunTasks(u, polls, st))
    decreases |polls|
  {
    if polls != [] && t.verdict.Pending? {
      ServeAlike(t, u, polls[0], st);
      ServeOk(t, polls[0], st);
      ServeOk(u, polls[0], st);
      if Serve(t, polls[0], st).verdict.Abandoned? {
      } else {
        RunAlike(Serve(t, polls[0], st), Serve(u, polls[0], st), polls[1..], st);
      }
    }
  }

  /** Cancellation is invisible: dropping the reader after any part of a schedule, with all its tasks, and
      entering it again from the records gives the same records, counters and verdict as going on. */
  lemma {:induction false} ReadingResumes(t: Session, first: seq<TaskEvent>, rest: seq<TaskEvent>, st: Settings)
    requires SessionOk(t)
    ensures SameReading(RunTasks(t, first + [Dropped] + rest, st), RunTasks(t, first + rest, st))
    decreases |first|
  {
    var all, straight := first + [Dropped] + rest, first + rest;
    if !t.verdict.Pending? {
    } else if first == [] {
      assert all[1..] == rest && straight == rest;
      EnterOk(t.reader);
      assert t.waiting + t.running == Unfinished(t.reader.pipes);
      RunAlike(Enter(t.reader), t, rest, st);
    } else {
      assert all[1..] == first[1..] + [Dropped] + rest && straight[1..] == first[1..] + rest;
      assert all[0] == first[0] == straight[0];
      ServeOk(t, first[0], st);
      var s := Serve(t, first[0], st);
      if !s.verdict.Abandoned? {
        ReadingResumes(s, first[1..], rest, st);
      }
    }
  }

  // ----- the tasks refine the reader -----

  /** Every poll with a delivery is one of a task there is. */
  ghost predicate Scheduled(t: Session, polls: seq<TaskEvent>, st: Settings)
    decreases |polls|
  {
    polls != [] && t.verdict.Pending? ==>
      && (polls[0].Woken? ==> t.Lives(polls[0].pipe))
      && Scheduled(Serve(t, polls[0], st), polls[1..], st)
  }

  function TurnOf(x: TaskEvent): Turn {
    if x.Woken? then Ready(x.pipe, x.delivery) else Reenter
  }

  function TurnsFrom(polls: seq<TaskEvent>): seq<Turn> {
    seq(|polls|, k requires 0 <= k < |polls| => TurnOf(polls[k]))
  }

  /** The same record, but that a poll may have given it its first, empty buffer already. */
  predicate Begun(p: PipeRecord, q: PipeRecord) {
    q == p || (p.buffer.Unset? && q == p.(buffer := Filled([])))
  }

  ghost predicate AllBegun(r: Reader, s: Reader) {
    && |r.pipes| == |s.pipes|
    && (forall i :: 0 <= i < |r.pipes| ==> Begun(r.pipes[i], s.pipes[i]))
    && s.bytesRead == r.bytesRead && s.succeeded == r.succeeded && s.failed == r.failed
  }

  lemma FirstPollRefines(r: Reader, t: Session, i: nat)
    requires SessionOk(t) && t.verdict.Pending? && i in t.waiting && AllBegun(r, t.reader)
    ensures AllBegun(r, FirstPoll(t, i).reader)
  {
  }

  lemma PassRefines(r: Reader, t: Session, i: nat, d: Delivery, st: Settings)
    requires SessionOk(t) && t.verdict.Pending? && i in t.running && AllBegun(r, t.reader)
    ensures var s, w := Pass(t, i, d, st), Wake(r, i, d, st);
            s.verdict == w.verdict && AllBegun(w.reader, s.reader)
  {
    var s, w := Pass(t, i, d, st), Wake(r, i, d, st);
    assert Begun(r.pipes[i], t.reader.pipes[i]);
    if s.reader.pipes[i].finished {
      assert Unfinished(s.reader.pipes) == Unfinished(t.reader.pipes) - {i};
      NoneUnfinished(w.reader.pipes);
      assert Unfinished(w.reader.pipes) == Unfinished(s.reader.pipes);
    }
  }

  lemma FinishedHaveBegun(r: Reader, s: Reader)
    requires AllBegun(r, s) && RecordsOk(r.pipes) && AllFinished(s.pipes)
    ensures r == s
  {
    assert forall i :: 0 <= i < |r.pipes| ==> Begun(r.pipes[i], s.pipes[i]) && RecordOk(r.pipes[i]);
    assert r.pipes == s.pipes;
  }

  lemma WokenRefines(r: Reader, t: Session, i: nat, d: Delivery, st: Settings)
    requires SessionOk(t) && t.verdict.Pending? && t.Lives(i) && AllBegun(r, t.reader)
    ensures var s, w := Serve(t, Woken(i, d), st), Wake(r, i, d, st);
            s.verdict == w.verdict && AllBegun(w.reader, s.reader)
  {
    if i in t.waiting {
      FirstPollOk(t, i);
      FirstPollRefines(r, t, i);
      PassRefines(r, FirstPoll(t, i), i, d, st);
    } else {
      PassRefines(r, t, i, d, st);
    }
  }

  /** Tasks that are made, polled, dropped and made anew read as the reader specification says: the same
      verdict after the same deliveries, and the same records but for first, empty buffers. */
  lemma {:induction false} TasksRefineReader(r: Reader, t: Session, polls: seq<TaskEvent>, st: Settings)
    requires SessionOk(t) && t.verdict.Pending? && AllBegun(r, t.reader) && RecordsOk(r.pipes)
    requires Scheduled(t, polls, st)
    ensures var u, s := RunTasks(t, polls, st), Read(r, TurnsFrom(polls), st);
            && u.verdict == s.verdict && AllBegun(s.reader, u.reader)
            && (u.verdict.Complete? ==> u.reader == s.reader)
    decreases |polls|
  {
    if polls != [] {
      var x, rest := polls[0], polls[1..];
      assert TurnsFrom(polls)[1..] == TurnsFrom(rest);
      var t1 := Serve(t, x, st);
      ServeOk(t, x, st);
      match x {
        case Dropped =>
          TasksRefineReader(r, t1, rest, st);
        case Started(i) =>
          if i in t.waiting { FirstPollOk(t, i); FirstPollRefines(r, t, i); }
          TasksRefineReader(r, t1, rest, st);
        case Woken(i, d) =>
          WokenRefines(r, t, i, d, st);
          WakeKeepsRecords(r, i, d, st);
          var w := Wake(r, i, d, st);
          if w.verdict.Pending? {
            TasksRefineReader(w.reader, t1, rest, st);
          } else if w.verdict.Complete? {
            FinishedHaveBegun(w.reader, t1.reader);
          }
      }
    }
  }

  lemma WakeKeepsRecords(r: Reader, i: nat, d: Delivery, st: Settings)
    requires RecordsOk(r.pipes) && i < |r.pipes|
    ensures var w := Wake(r, i, d, st);
            && (!w.verdict.Abandoned? ==> RecordsOk(w.reader.pipes))
            && (w.verdict.Complete? ==> AllFinished(w.reader.pipes))
  {
  }

  /** One wake-up of a reader that has just been entered is one step of the specification. */
  lemma OneWakeUp(r: Reader, i: nat, d: Delivery, st: Settings)
    requires i < |r.pipes| && !r.pipes[i].finished
    ensures var u := RunTasks(Enter(r), [Woken(i, d)], st);
            Step(u.reader, u.verdict) == Wake(r, i, d, st)
  {
    var t := Enter(r);
    assert i in Unfinished(r.pipes);
    var u, w := Serve(t, Woken(i, d), st), Wake(r, i, d, st);
    assert RunTasks(t, [Woken(i, d)], st) == u;
    if !r.pipes[i].buffer.Failed? {
      assert u.reader.pipes == w.reader.pipes;
      if w.reader.pipes[i].finished {
        assert t.waiting - {i} + ({i} - {i}) == Unfinished(w.reader.pipes);
        NoneUnfinished(w.reader.pipes);
      }
    }
  }

  /** The deliveries that pipes can make are deliveries to tasks there are. */
  lemma {:induction false} PossibleIsScheduled(r: Reader, t: Session, polls: seq<TaskEvent>, content: seq<Bytes>,
                                               st: Settings)
    requires SessionOk(t) && AllBegun(r, t.reader) && RecordsOk(r.pipes)
    requires |content| == |r.pipes| && Possible(r, TurnsFrom(polls), content, st)
    ensures Scheduled(t, polls, st)
    decreases |polls|
  {
    if polls != [] && t.verdict.Pending? {
      var x, rest := polls[0], polls[1..];
      assert TurnsFrom(polls)[1..] == TurnsFrom(rest);
      var t1 := Serve(t, x, st);
      ServeOk(t, x, st);
      if x.Woken? {
        var i := x.pipe;
        assert Begun(r.pipes[i], t.reader.pipes[i]);
        assert i in Unfinished(t.reader.pipes);
        WokenRefines(r, t, i, x.delivery, st);
        WakeKeepsRecords(r, i, x.delivery, st);
        if t1.verdict.Pending? {
          PossibleIsScheduled(Wake(r, i, x.delivery, st).reader, t1, rest, content, st);
        }
      } else {
        if x.Started? && x.pipe in t.waiting { FirstPollOk(t, x.pipe); FirstPollRefines(r, t, x.pipe); }
        PossibleIsScheduled(r, t1, rest, content, st);
      }
    }
  }

  /** The whole of it: tasks polled in any order, dropped and made anew any number of times, that come to a
      verdict without read errors come to the one of reading each pipe to its end in turn, with its data. */
  lemma TasksReadEverything(r: Reader, polls: seq<TaskEvent>, content: seq<Bytes>, names: nat, st: Settings)
    requires ReaderOk(r, names, st) && Faithful(r.pipes, content) && NoneFailed(r.pipes) && !AllFinished(r.pipes)
    requires Possible(r, TurnsFrom(polls), content, st) && NothingBreaks(TurnsFrom(polls))
    requires !RunTasks(Enter(r), polls, st).verdict.Pending?
    ensures var u := RunTasks(Enter(r), polls, st);
            && u.verdict == SequentialVerdict(content, names, st)
            && (u.verdict.Complete? ==> Collect(u.reader.pipes) == Some(WholeContents(r.pipes, content)))
  {
    EnterOk(r);
    NoneUnfinished(r.pipes);
    PossibleIsScheduled(r, Enter(r), polls, content, st);
    TasksRefineReader(r, Enter(r), polls, st);
    ScheduleIndependence(r, TurnsFrom(polls), content, names, st);
  }
}
