/** The task that writes clipboard data to another client. It races the write against a deadline and
    a shutdown request, and after a shutdown request goes on writing for a little while. */
module WriteTask {
  import opened Protocol

  /** In milliseconds. */
  const SHUTDOWN_EXTRA_WRITE_TIME: nat := 500

  datatype WriteResult = AllWritten | IoFailed | TimedOut | ReceivedShutdownRequest

  datatype Branch = WriteAll | Deadline | Interrupt

  /** How a series of writes to the pipe comes to a halt before all is written. */
  datatype Halt = WouldBlock | Breaks

  /** One time the runtime polls the task: when, the order in which the three branches of the race are
      tried, and what the pipe does: how many bytes it accepts in each write, and how that halts. */
  datatype Poll = Poll(now: nat, order: seq<Branch>, accepts: seq<nat>, halt: Halt)

  /** The cursor into the data, and what has come out of the other end of the pipe. */
  datatype Cursor = Cursor(position: nat, sink: Bytes)

  datatype Stage = First | Second(until: nat) | Ended(result: WriteResult, at: nat)

  datatype Job = Job(data: Bytes, start: nat, timeout: nat, shutdown: Option<nat>)

  function Min(a: nat, b: nat): nat {
    if a < b then a else b
  }

  function Max(a: nat, b: nat): nat {
    if a < b then b else a
  }

  // ----- the task as a function -----

  /** Writes until everything is written, the pipe is full, or it breaks. A pipe that accepts nothing
      at all counts as broken. */
  function Push(data: Bytes, p: Cursor, accepts: seq<nat>, halt: Halt): (Cursor, Option<WriteResult>)
    requires p.position <= |data|
    ensures Push(data, p, accepts, halt).0.position <= |data|
    decreases |accepts|
  {
    if p.position == |data| then (p, Some(AllWritten))
    else if accepts == [] then (p, if halt.Breaks? then Some(IoFailed) else None)
    else if accepts[0] == 0 then (p, Some(IoFailed))
    else
      var n := Min(accepts[0], |data| - p.position);
      Push(data, Cursor(p.position + n, p.sink + data[p.position..p.position + n]), accepts[1..], halt)
  }

  /** The first branch that is ready wins the race. A shutdown request ends the first race, and starts
      a second one in which only the extra time is left. */
  function Race(job: Job, p: Cursor, stage: Stage, poll: Poll, order: seq<Branch>): (Cursor, Stage)
    requires p.position <= |job.data| && !stage.Ended?
    ensures Race(job, p, stage, poll, order).0.position <= |job.data|
    decreases |order|
  {
    if order == [] then (p, stage)
    else
      match order[0]
      case WriteAll =>
        var (p', r) := Push(job.data, p, poll.accepts, poll.halt);
        if r.Some? then (p', Ended(r.value, poll.now))
        else Race(job, p', stage, poll.(accepts := [], halt := WouldBlock), order[1..])
      case Deadline =>
        if poll.now >= job.start + job.timeout then (p, Ended(TimedOut, poll.now))
        else Race(job, p, stage, poll, order[1..])
      case Interrupt =>
        if Interrupted(job, stage, poll.now) then
          (p, if stage.First? then Second(poll.now + SHUTDOWN_EXTRA_WRITE_TIME)
           else Ended(ReceivedShutdownRequest, poll.now))
        else Race(job, p, stage, poll, order[1..])
  }

  predicate Interrupted(job: Job, stage: Stage, now: nat)
    requires !stage.Ended?
  {
    if stage.First? then job.shutdown.Some? && now >= job.shutdown.value else now >= stage.until
  }

  /** The task after a series of polls. */
  function After(job: Job, polls: seq<Poll>): (Cursor, Stage)
    ensures After(job, polls).0.position <= |job.data|
  {
    if polls == [] then (Cursor(0, []), First)
    else
      var (p, stage) := After(job, polls[..|polls| - 1]);
      if stage.Ended? then (p, stage) else Race(job, p, stage, polls[|polls| - 1], polls[|polls| - 1].order)
  }

  // ----- what a poll may be -----

  /** When the task must be polled at the latest: its timers and the shutdown token wake it. */
  function Due(job: Job, stage: Stage): nat
    requires !stage.Ended?
  {
    var deadline := job.start + job.timeout;
    match stage
    case Second(until) => Min(deadline, until)
    case First => if job.shutdown.Some? then Min(deadline, Max(job.start, job.shutdown.value)) else deadline
  }

  /** The runtime polls every branch of the race, never before the task has started and never later than
      the task asked to be woken. */
  ghost predicate Prompt(job: Job, polls: seq<Poll>) {
    polls != [] ==>
      var front, poll := polls[..|polls| - 1], polls[|polls| - 1];
      && Prompt(job, front)
      && job.start <= poll.now
      && Lists(poll.order, {WriteAll, Deadline, Interrupt})
      && (!After(job, front).1.Ended? ==> poll.now <= Due(job, After(job, front).1))
  }

  // ----- a prefix, and in time -----

  lemma {:induction false} PushWritesPrefix(data: Bytes, p: Cursor, accepts: seq<nat>, halt: Halt)
    requires p.position <= |data| && p.sink == data[..p.position]
    ensures var (p', r) := Push(data, p, accepts, halt);
            p'.sink == data[..p'.position] && (r == Some(AllWritten) <==> p'.position == |data|)
            && (r.Some? ==> r.value == AllWritten || r.value == IoFailed)
    decreases |accepts|
  {
    if p.position < |data| && accepts != [] && accepts[0] != 0 {
      var n := Min(accepts[0], |data| - p.position);
      assert data[..p.position] + data[p.position..p.position + n] == data[..p.position + n];
      PushWritesPrefix(data, Cursor(p.position + n, p.sink + data[p.position..p.position + n]), accepts[1..], halt);
    }
  }

  lemma {:induction false} RaceWritesPrefix(job: Job, p: Cursor, stage: Stage, poll: Poll, order: seq<Branch>)
    requires p.position <= |job.data| && !stage.Ended? && p.sink == job.data[..p.position]
    ensures var (p', stage') := Race(job, p, stage, poll, order);
            && p'.sink == job.data[..p'.position]
            && (stage'.Ended? && stage'.result.AllWritten? ==> p'.position == |job.data|)
    decreases |order|
  {
    if order != [] {
      PushWritesPrefix(job.data, p, poll.accepts, poll.halt);
      match order[0]
      case WriteAll =>
        var (p', r) := Push(job.data, p, poll.accepts, poll.halt);
        if r.None? { RaceWritesPrefix(job, p', stage, poll.(accepts := [], halt := WouldBlock), order[1..]); }
      case Deadline => RaceWritesPrefix(job, p, stage, poll, order[1..]);
      case Interrupt => RaceWritesPrefix(job, p, stage, poll, order[1..]);
    }
  }

  /** No byte is lost or repeated when the first write is abandoned for the second: what has been
      written is a prefix of the data at all times, and all of it if the task says so. */
  lemma {:induction false} WritesPrefix(job: Job, polls: seq<Poll>)
    ensures var (p, stage) := After(job, polls);
            && p.sink == job.data[..p.position]
            && (stage.Ended? && stage.result.AllWritten? ==> p.sink == job.data)
  {
    if polls != [] {
      WritesPrefix(job, polls[..|polls| - 1]);
      var (p, stage) := After(job, polls[..|polls| - 1]);
      if !stage.Ended? {
        RaceWritesPrefix(job, p, stage, polls[|polls| - 1], polls[|polls| - 1].order);
      }
    }
  }

  /** How a race can turn out, whatever the order in which its branches are tried. */
  lemma {:induction false} RaceOutcome(job: Job, p: Cursor, stage: Stage, poll: Poll, order: seq<Branch>)
    requires p.position <= |job.data| && !stage.Ended? && p.sink == job.data[..p.position]
    ensures match Race(job, p, stage, poll, order).1
            case Ended(r, at) =>
              && at == poll.now
              && (r.TimedOut? ==> poll.now >= job.start + job.timeout)
              && (r.ReceivedShutdownRequest? ==> stage.Second? && poll.now >= stage.until)
            case Second(until) =>
              || stage == Second(until)
              || (stage.First? && until == poll.now + SHUTDOWN_EXTRA_WRITE_TIME && Interrupted(job, stage, poll.now))
            case First => stage.First?
    ensures var stage' := Race(job, p, stage, poll, order).1;
            && (Deadline in order && poll.now >= job.start + job.timeout ==> stage' != stage)
            && (Interrupt in order && Interrupted(job, stage, poll.now) ==> stage' != stage)
    decreases |order|
  {
    if order != [] {
      PushWritesPrefix(job.data, p, poll.accepts, poll.halt);
      match order[0]
      case WriteAll =>
        var (p', r) := Push(job.data, p, poll.accepts, poll.halt);
        if r.None? { RaceOutcome(job, p', stage, poll.(accepts := [], halt := WouldBlock), order[1..]); }
      case Deadline => RaceOutcome(job, p, stage, poll, order[1..]);
      case Interrupt => RaceOutcome(job, p, stage, poll, order[1..]);
    }
  }

  /** The task is over in time: at its deadline, or 500 ms after the shutdown request (after its own
      start, if it was started later than that). It gives up for either reason only when it must. */
  lemma {:induction false} EndsInTime(job: Job, polls: seq<Poll>)
    requires Prompt(job, polls)
    ensures match After(job, polls).1
            case Ended(r, at) =>
              && job.start <= at <= job.start + job.timeout
              && (job.shutdown.Some? ==> at <= Max(job.start, job.shutdown.value) + 500)
              && (r.TimedOut? ==> at == job.start + job.timeout)
              && (r.ReceivedShutdownRequest? ==>
                    job.shutdown.Some? && at == Max(job.start, job.shutdown.value) + 500)
            case Second(until) =>
              job.shutdown.Some? && until == Max(job.start, job.shutdown.value) + 500
            case First => true
  {
    if polls != [] {
      var front, poll := polls[..|polls| - 1], polls[|polls| - 1];
      EndsInTime(job, front);
      WritesPrefix(job, front);
      var (p, stage) := After(job, front);
      if !stage.Ended? {
        RaceOutcome(job, p, stage, poll, poll.order);
      }
    }
  }

  /** A poll that comes when the task is due never leaves it where it was. So a task that is polled when
      it is due, and at most once more when that was for a shutdown request, is over. */
  lemma DueMeansMoving(job: Job, polls: seq<Poll>)
    requires Prompt(job, polls) && polls != [] && !After(job, polls[..|polls| - 1]).1.Ended?
    requires polls[|polls| - 1].now == Due(job, After(job, polls[..|polls| - 1]).1)
    ensures var before, stage := After(job, polls[..|polls| - 1]).1, After(job, polls).1;
            stage != before && (before.Second? ==> stage.Ended?)
  {
    var front, poll := polls[..|polls| - 1], polls[|polls| - 1];
    WritesPrefix(job, front);
    var (p, stage) := After(job, front);
    RaceOutcome(job, p, stage, poll, poll.order);
    assert Deadline in Elements(poll.order) && Interrupt in Elements(poll.order);
  }

  /** A pipe that accepts nothing, polled at the start and when the task is due again. */
  function Stuck(job: Job): seq<Poll> {
    var order := [Interrupt, Deadline, WriteAll];
    [Poll(job.start, order, [], WouldBlock),
     Poll(job.start + Min(job.timeout, SHUTDOWN_EXTRA_WRITE_TIME), order, [], WouldBlock)]
  }

  lemma StuckEnds(job: Job)
    requires job.shutdown.Some? && job.shutdown.value < job.start
    ensures Prompt(job, Stuck(job)) && After(job, Stuck(job)).1.Ended?
    ensures After(job, Stuck(job)).1.at == job.start + Min(job.timeout, SHUTDOWN_EXTRA_WRITE_TIME)
  {
    var polls, order := Stuck(job), [Interrupt, Deadline, WriteAll];
    var one := polls[..1];
    assert order[0] == Interrupt && order[1] == Deadline && order[2] == WriteAll;
    assert Elements(order) == {WriteAll, Deadline, Interrupt};
    assert Lists(order, {WriteAll, Deadline, Interrupt});
    assert one[..|one| - 1] == [] && one[0] == polls[0];
    assert After(job, []) == (Cursor(0, []), First) && Due(job, First) == job.start;
    assert After(job, one) == (Cursor(0, []), Second(job.start + SHUTDOWN_EXTRA_WRITE_TIME));
    assert Prompt(job, one);
    assert order[1..][0] == Deadline;
  }

  predicate OverBy(stage: Stage, time: nat) {
    stage.Ended? ==> stage.at <= time
  }

  /** Counted from the shutdown request alone, 500 ms are enough exactly for the tasks that were started
      before it, or whose deadline is near: a task started later still takes its own 500 ms. */
  lemma ExtraTimeCountsFromTheStart(job: Job)
    requires job.shutdown.Some?
    ensures var limit := job.shutdown.value + 500;
            (forall polls :: Prompt(job, polls) ==> OverBy(After(job, polls).1, limit)) <==>
            job.start <= job.shutdown.value || job.start + job.timeout <= limit
  {
    var limit := job.shutdown.value + SHUTDOWN_EXTRA_WRITE_TIME;
    if job.start <= job.shutdown.value || job.start + job.timeout <= limit {
      forall polls | Prompt(job, polls) ensures OverBy(After(job, polls).1, limit) {
        EndsInTime(job, polls);
      }
    } else {
      StuckEnds(job);
      assert !OverBy(After(job, Stuck(job)).1, limit);
    }
  }

  // ----- what a poll does, and what is delivered -----

  /** What the pipe takes in one poll: the counts before the first write that accepts nothing. */
  function Accepted(accepts: seq<nat>): nat {
    if accepts == [] || accepts[0] == 0 then 0 else accepts[0] + Accepted(accepts[1..])
  }

  /** The write does not go on after this poll even if the data are not all written. */
  predicate Fails(poll: Poll) {
    0 in poll.accepts || poll.halt.Breaks?
  }

  /** A branch that ends the race without any write. */
  predicate IsReady(job: Job, stage: Stage, poll: Poll, branch: Branch)
    requires !stage.Ended?
  {
    match branch
    case WriteAll => false
    case Deadline => job.start + job.timeout <= poll.now
    case Interrupt =>
      match stage
      case First => job.shutdown.Some? && job.shutdown.value <= poll.now
      case Second(until) => until <= poll.now
  }

  /** The write is polled at position `i`: no branch before it has ended the race. */
  predicate WritesAt(job: Job, stage: Stage, poll: Poll, i: nat)
    requires !stage.Ended?
  {
    && i < |poll.order| && poll.order[i].WriteAll?
    && forall j :: 0 <= j < i ==> !IsReady(job, stage, poll, poll.order[j])
  }

  predicate Writes(job: Job, stage: Stage, poll: Poll)
    requires !stage.Ended?
  {
    exists i :: 0 <= i < |poll.order| && WritesAt(job, stage, poll, i)
  }

  lemma {:induction false} PushMoves(data: Bytes, p: Cursor, accepts: seq<nat>, halt: Halt)
    requires p.position <= |data|
    ensures var (p', r) := Push(data, p, accepts, halt);
            && p'.position == Min(p.position + Accepted(accepts), |data|)
            && r == if p'.position == |data| then Some(AllWritten)
                    else if 0 in accepts || halt.Breaks? then Some(IoFailed) else None
    decreases |accepts|
  {
    if p.position < |data| && accepts != [] && accepts[0] != 0 {
      var n := Min(accepts[0], |data| - p.position);
      assert accepts == [accepts[0]] + accepts[1..];
      PushMoves(data, Cursor(p.position + n, p.sink + data[p.position..p.position + n]), accepts[1..], halt);
    }
  }

  /** The two ways in which a poll can leave a task that has not ended. */
  ghost predicate Polled(job: Job, p: Cursor, stage: Stage, poll: Poll, p': Cursor, stage': Stage)
    requires p.position <= |job.data| && !stage.Ended?
  {
    if Writes(job, stage, poll) then
      && p'.position == Min(p.position + Accepted(poll.accepts), |job.data|)
      && (if p'.position == |job.data| then stage' == Ended(AllWritten, poll.now)
          else if Fails(poll) then stage' == Ended(IoFailed, poll.now)
          else !stage'.Ended? || stage'.result.TimedOut? || stage'.result.ReceivedShutdownRequest?)
    else
      p' == p && (!stage'.Ended? || stage'.result.TimedOut? || stage'.result.ReceivedShutdownRequest?)
  }

  lemma WritesFirst(job: Job, stage: Stage, poll: Poll)
    requires !stage.Ended? && poll.order != []
    ensures poll.order[0].WriteAll? ==> Writes(job, stage, poll)
    ensures IsReady(job, stage, poll, poll.order[0]) ==> !Writes(job, stage, poll)
    ensures !poll.order[0].WriteAll? && !IsReady(job, stage, poll, poll.order[0]) ==>
              (Writes(job, stage, poll) <==> Writes(job, stage, poll.(order := poll.order[1..])))
  {
    var rest := poll.(order := poll.order[1..]);
    if poll.order[0].WriteAll? {
      assert WritesAt(job, stage, poll, 0);
    }
    if !poll.order[0].WriteAll? && !IsReady(job, stage, poll, poll.order[0]) {
      if Writes(job, stage, poll) {
        var i :| 0 <= i < |poll.order| && WritesAt(job, stage, poll, i);
        forall j | 0 <= j < i - 1 ensures !IsReady(job, stage, rest, rest.order[j]) {
          assert !IsReady(job, stage, poll, poll.order[j + 1]);
        }
        assert WritesAt(job, stage, rest, i - 1);
      }
      if Writes(job, stage, rest) {
        var i :| 0 <= i < |rest.order| && WritesAt(job, stage, rest, i);
        forall j | 0 <= j < i + 1 ensures !IsReady(job, stage, poll, poll.order[j]) {
          assert j > 0 ==> !IsReady(job, stage, rest, rest.order[j - 1]);
        }
        assert WritesAt(job, stage, poll, i + 1);
      }
    }
  }

  /** A race whose write has been polled and is not over moves nothing any more. */
  lemma {:induction false} RaceAfterWrite(job: Job, p: Cursor, stage: Stage, poll: Poll, order: seq<Branch>)
    requires p.position < |job.data| && !stage.Ended? && poll.accepts == [] && poll.halt.WouldBlock?
    ensures var (p', stage') := Race(job, p, stage, poll, order);
            p' == p && (!stage'.Ended? || stage'.result.TimedOut? || stage'.result.ReceivedShutdownRequest?)
    decreases |order|
  {
    if order != [] {
      RaceAfterWrite(job, p, stage, poll, order[1..]);
    }
  }

  lemma {:induction false} RaceIsPolled(job: Job, p: Cursor, stage: Stage, poll: Poll)
    requires p.position <= |job.data| && !stage.Ended?
    ensures var (p', stage') := Race(job, p, stage, poll, poll.order); Polled(job, p, stage, poll, p', stage')
    decreases |poll.order|
  {
    if poll.order != [] {
      WritesFirst(job, stage, poll);
      if poll.order[0].WriteAll? {
        PushMoves(job.data, p, poll.accepts, poll.halt);
        var (p1, r) := Push(job.data, p, poll.accepts, poll.halt);
        if r.None? {
          RaceAfterWrite(job, p1, stage, poll.(accepts := [], halt := WouldBlock), poll.order[1..]);
        }
      } else if !IsReady(job, stage, poll, poll.order[0]) {
        RaceIsPolled(job, p, stage, poll.(order := poll.order[1..]));
        RaceOrder(job, p, stage, poll, poll.order[1..]);
      }
    }
  }

  /** The order in which branches are tried is the one that is passed on. */
  lemma {:induction false} RaceOrder(job: Job, p: Cursor, stage: Stage, poll: Poll, order: seq<Branch>)
    requires p.position <= |job.data| && !stage.Ended?
    ensures Race(job, p, stage, poll.(order := order), order) == Race(job, p, stage, poll, order)
  {
    RaceIgnoresOrder(job, p, stage, poll.(order := order), poll, order);
  }

  lemma {:induction false} RaceIgnoresOrder(job: Job, p: Cursor, stage: Stage, a: Poll, b: Poll, order: seq<Branch>)
    requires p.position <= |job.data| && !stage.Ended? && a == b.(order := a.order)
    ensures Race(job, p, stage, a, order) == Race(job, p, stage, b, order)
    decreases |order|
  {
    if order != [] {
      match order[0]
      case WriteAll =>
        var (p1, r) := Push(job.data, p, a.accepts, a.halt);
        if r.None? {
          RaceIgnoresOrder(job, p1, stage, a.(accepts := [], halt := WouldBlock), b.(accepts := [], halt := WouldBlock),
                           order[1..]);
        }
      case _ => RaceIgnoresOrder(job, p, stage, a, b, order[1..]);
    }
  }

  /** Exactly what one poll does: if no other branch is ready before the write is tried, the cursor moves by
      what the pipe takes or by what is left, whichever is less, and the task ends with all written if
      nothing is left then, or with an error if the pipe breaks or takes nothing. Otherwise nothing is
      written. */
  lemma PollExactly(job: Job, polls: seq<Poll>)
    requires polls != [] && !After(job, polls[..|polls| - 1]).1.Ended?
    ensures var (p, stage) := After(job, polls[..|polls| - 1]);
            var (p', stage') := After(job, polls);
            Polled(job, p, stage, polls[|polls| - 1], p', stage')
  {
    var (p, stage) := After(job, polls[..|polls| - 1]);
    RaceIsPolled(job, p, stage, polls[|polls| - 1]);
  }

  /** All that the pipe takes in the polls that get as far as writing. */
  function Taken(job: Job, polls: seq<Poll>): nat {
    if polls == [] then 0
    else
      var front, poll := polls[..|polls| - 1], polls[|polls| - 1];
      var stage := After(job, front).1;
      Taken(job, front) + if !stage.Ended? && Writes(job, stage, poll) then Accepted(poll.accepts) else 0
  }

  /** Some poll got as far as writing. */
  predicate Wrote(job: Job, polls: seq<Poll>) {
    polls != [] &&
    var front := polls[..|polls| - 1];
    var stage := After(job, front).1;
    Wrote(job, front) || (!stage.Ended? && Writes(job, stage, polls[|polls| - 1]))
  }

  /** Delivery. What comes out of the pipe is exactly as much of the data as the pipe has taken; the task
      ends with all written exactly if that is everything, and with an error only if a write failed. */
  lemma {:induction false} DeliversWhatIsTaken(job: Job, polls: seq<Poll>)
    ensures var (p, stage) := After(job, polls);
            && p.sink == job.data[..Min(Taken(job, polls), |job.data|)]
            && p.position == Min(Taken(job, polls), |job.data|)
            && (stage.Ended? && stage.result.AllWritten? <==> Wrote(job, polls) && Taken(job, polls) >= |job.data|)
            && (stage.Ended? && stage.result.IoFailed? ==> exists k :: 0 <= k < |polls| && Fails(polls[k]))
  {
    WritesPrefix(job, polls);
    if polls != [] {
      var front := polls[..|polls| - 1];
      DeliversWhatIsTaken(job, front);
      if !After(job, front).1.Ended? {
        PollExactly(job, polls);
      } else if After(job, front).1.result.IoFailed? {
        var k :| 0 <= k < |front| && Fails(front[k]);
        assert Fails(polls[k]);
      }
    }
  }

  /** A poll before the task is due always gets as far as writing. */
  lemma EarlyPollsWrite(job: Job, stage: Stage, poll: Poll)
    requires !stage.Ended? && WriteAll in poll.order && job.start <= poll.now < Due(job, stage)
    ensures Writes(job, stage, poll)
  {
    var i :| 0 <= i < |poll.order| && poll.order[i] == WriteAll;
    assert WritesAt(job, stage, poll, i);
  }

  /** Every poll comes before the task is due. */
  ghost predicate Early(job: Job, polls: seq<Poll>) {
    polls != [] ==>
      var front, poll := polls[..|polls| - 1], polls[|polls| - 1];
      && Early(job, front)
      && (!After(job, front).1.Ended? ==> poll.now < Due(job, After(job, front).1))
  }

  function Sum(polls: seq<Poll>): nat {
    if polls == [] then 0 else Sum(polls[..|polls| - 1]) + Accepted(polls[|polls| - 1].accepts)
  }

  lemma {:induction false} EarlyTakesAll(job: Job, polls: seq<Poll>)
    requires Prompt(job, polls) && Early(job, polls)
    requires forall k :: 0 <= k < |polls| ==> !Fails(polls[k])
    ensures polls != [] ==> Wrote(job, polls)
    ensures Taken(job, polls) == Sum(polls) || (Wrote(job, polls) && Taken(job, polls) >= |job.data|)
  {
    if polls != [] {
      var front, poll := polls[..|polls| - 1], polls[|polls| - 1];
      assert forall k :: 0 <= k < |front| ==> front[k] == polls[k];
      EarlyTakesAll(job, front);
      DeliversWhatIsTaken(job, front);
      var stage := After(job, front).1;
      if !stage.Ended? {
        assert WriteAll in Elements(poll.order);
        EarlyPollsWrite(job, stage, poll);
      } else {
        EarlyEnd(job, front);
      }
    }
  }

  /** Before it is due and without a failing pipe, a task ends in one way only. */
  lemma {:induction false} EarlyEnd(job: Job, polls: seq<Poll>)
    requires Prompt(job, polls) && Early(job, polls) && After(job, polls).1.Ended?
    requires forall k :: 0 <= k < |polls| ==> !Fails(polls[k])
    ensures After(job, polls).1.result.AllWritten?
  {
    var front, poll := polls[..|polls| - 1], polls[|polls| - 1];
    assert forall k :: 0 <= k < |front| ==> front[k] == polls[k];
    if After(job, front).1.Ended? {
      EarlyEnd(job, front);
    } else {
      WritesPrefix(job, front);
      DeliversWhatIsTaken(job, polls);
      var (p, stage) := After(job, front);
      RaceOutcome(job, p, stage, poll, poll.order);
    }
  }

  /** If the pipe takes all the data before the task is due, all of them are delivered. */
  lemma DeliversInTime(job: Job, polls: seq<Poll>)
    requires Prompt(job, polls) && Early(job, polls) && polls != []
    requires forall k :: 0 <= k < |polls| ==> !Fails(polls[k])
    requires Sum(polls) >= |job.data|
    ensures var (p, stage) := After(job, polls); stage.Ended? && stage.result.AllWritten? && p.sink == job.data
  {
    EarlyTakesAll(job, polls);
    DeliversWhatIsTaken(job, polls);
  }

  // ----- the task as a program -----

  /** The library loop behind a write of all data. */
  method WriteAllBuf(data: Bytes, position: nat, sink: Bytes, accepts: seq<nat>, halt: Halt)
    returns (position': nat, sink': Bytes, result: Option<WriteResult>)
    requires position <= |data|
    ensures (Cursor(position', sink'), result) == Push(data, Cursor(position, sink), accepts, halt)
  {
    position', sink' := position, sink;
    var k := 0;
    while position' < |data|
      invariant position' <= |data| && k <= |accepts|
      invariant Push(data, Cursor(position, sink), accepts, halt) ==
                Push(data, Cursor(position', sink'), accepts[k..], halt)
      decreases |accepts| - k
    {
      if k == |accepts| {
        return position', sink', if halt.Breaks? then Some(IoFailed) else None;
      }
      if accepts[k] == 0 {
        return position', sink', Some(IoFailed);
      }
      assert accepts[k..][1..] == accepts[k + 1..];
      var n := Min(accepts[k], |data| - position');
      position', sink', k := position' + n, sink' + data[position'..position' + n], k + 1;
    }
    return position', sink', Some(AllWritten);
  }

  /** One poll of a race. The result is the branch that won, if any did. */
  method PollRace(job: Job, position: nat, sink: Bytes, stage: Stage, poll: Poll) returns (position': nat,
                  sink': Bytes, stage': Stage)
    requires position <= |job.data| && !stage.Ended?
    ensures (Cursor(position', sink'), stage') == Race(job, Cursor(position, sink), stage, poll, poll.order)
  {
    position', sink', stage' := position, sink, stage;
    var left := poll;
    for k := 0 to |poll.order|
      invariant position' <= |job.data| && stage' == stage && left.now == poll.now
      invariant Race(job, Cursor(position, sink), stage, poll, poll.order)
             == Race(job, Cursor(position', sink'), stage, left, poll.order[k..])
    {
      assert poll.order[k..][1..] == poll.order[k + 1..];
      match poll.order[k]
      case WriteAll =>
        var result;
        position', sink', result := WriteAllBuf(job.data, position', sink', left.accepts, left.halt);
        if result.Some? {
          stage' := Ended(result.value, poll.now);
          return;
        }
        left := left.(accepts := [], halt := WouldBlock);
      case Deadline =>
        if poll.now >= job.start + job.timeout {
          stage' := Ended(TimedOut, poll.now);
          return;
        }
      case Interrupt =>
        if Interrupted(job, stage, poll.now) {
          stage' := if stage.First? then Second(poll.now + SHUTDOWN_EXTRA_WRITE_TIME)
                    else Ended(ReceivedShutdownRequest, poll.now);
          return;
        }
    }
  }

  /** The whole task: the race, and after a shutdown request the second race, continued from the same
      position. It delivers a prefix of the data, and is over in time. */
  method WriteClipboardData(job: Job, polls: seq<Poll>) returns (sink: Bytes, stage: Stage)
    requires Prompt(job, polls)
    ensures After(job, polls) == (Cursor(|sink|, sink), stage)
    ensures sink <= job.data
    ensures |sink| == Min(Taken(job, polls), |job.data|)
    ensures stage.Ended? ==> stage.at <= job.start + job.timeout && (stage.result.AllWritten? ==> sink == job.data)
    ensures stage.Ended? && job.shutdown.Some? ==> stage.at <= Max(job.start, job.shutdown.value) + 500
    ensures stage.Ended? && stage.result.IoFailed? ==> exists k :: 0 <= k < |polls| && Fails(polls[k])
  {
    var position: nat, k: nat := 0, 0;
    sink, stage := [], First;
    while k < |polls| && stage.First?
      invariant k <= |polls| && After(job, polls[..k]) == (Cursor(position, sink), stage)
    {
      OnePollMore(job, polls, k);
      position, sink, stage := PollRace(job, position, sink, stage, polls[k]);
      k := k + 1;
    }
    while k < |polls| && stage.Second?
      invariant k <= |polls| && After(job, polls[..k]) == (Cursor(position, sink), stage)
      invariant k < |polls| ==> !stage.First?
    {
      OnePollMore(job, polls, k);
      position, sink, stage := PollRace(job, position, sink, stage, polls[k]);
      k := k + 1;
    }
    assert After(job, polls) == (Cursor(position, sink), stage) by {
      if stage.Ended? {
        EndedStays(job, polls, k);
      } else {
        assert k == |polls| && polls[..k] == polls;
      }
    }
    TaskOutcome(job, polls, Cursor(position, sink), stage);
  }

  lemma OnePollMore(job: Job, polls: seq<Poll>, k: nat)
    requires k < |polls| && !After(job, polls[..k]).1.Ended?
    ensures var (p, stage) := After(job, polls[..k]);
            && After(job, polls[..k + 1]) == Race(job, p, stage, polls[k], polls[k].order)
            && (stage.Second? ==> !After(job, polls[..k + 1]).1.First?)
  {
    var (p, stage) := After(job, polls[..k]);
    assert polls[..k + 1][..k] == polls[..k];
    WritesPrefix(job, polls[..k]);
    RaceOutcome(job, p, stage, polls[k], polls[k].order);
  }

  /** What the task has come to. */
  lemma TaskOutcome(job: Job, polls: seq<Poll>, p: Cursor, stage: Stage)
    requires Prompt(job, polls) && After(job, polls) == (p, stage)
    ensures p == Cursor(|p.sink|, p.sink) && p.sink <= job.data && |p.sink| == Min(Taken(job, polls), |job.data|)
    ensures stage.Ended? ==> stage.at <= job.start + job.timeout && (stage.result.AllWritten? ==> p.sink == job.data)
    ensures stage.Ended? && job.shutdown.Some? ==> stage.at <= Max(job.start, job.shutdown.value) + 500
    ensures stage.Ended? && stage.result.IoFailed? ==> exists k :: 0 <= k < |polls| && Fails(polls[k])
  {
    WritesPrefix(job, polls);
    DeliversWhatIsTaken(job, polls);
    EndsInTime(job, polls);
  }

  lemma {:induction false} EndedStays(job: Job, polls: seq<Poll>, k: nat)
    requires k <= |polls| && After(job, polls[..k]).1.Ended?
    ensures After(job, polls) == After(job, polls[..k])
  {
    if k < |polls| {
      assert polls[..|polls| - 1][..k] == polls[..k];
      EndedStays(job, polls[..|polls| - 1], k);
    } else {
      assert polls[..k] == polls;
    }
  }
}
