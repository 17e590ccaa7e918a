/** Pipes that may break, with read errors tolerated: the exact conditions under which the reader can
    come to each verdict, and so under which the verdict is the same for all schedules. */
module BrokenPipes {
  import opened Protocol
  import opened PipeReader

  /** All that one pipe is going to do: deliver its content, and then end or break. */
  datatype Script = Script(content: Bytes, breaks: bool)

  function Delivered(scripts: seq<Script>): seq<Bytes> {
    seq(|scripts|, i requires 0 <= i < |scripts| => scripts[i].content)
  }

  function Remainder(s: Script): Bytes {
    if s.breaks then [] else s.content
  }

  /** What is left when the content of all broken pipes has been dropped. */
  function Surviving(scripts: seq<Script>): seq<Bytes> {
    seq(|scripts|, i requires 0 <= i < |scripts| => Remainder(scripts[i]))
  }

  /** Each MIME type whose pipe does not break, with all that was written to that pipe. */
  function SurvivingContents(pipes: seq<PipeRecord>, scripts: seq<Script>): map<Mime, Bytes>
    requires |scripts| == |pipes|
  {
    if pipes == [] then map[]
    else
      var last := |pipes| - 1;
      var front := SurvivingContents(pipes[..last], scripts[..last]);
      if scripts[last].breaks then front else front[pipes[last].mime := scripts[last].content]
  }

  /** The delivery is the next one of the script. */
  predicate IsNext(p: PipeRecord, s: Script, d: Delivery) {
    && Deliverable(p, s.content, d)
    && (d.Eof? ==> !s.breaks)
    && (d.Broken? ==> s.breaks && Unread(p, s.content) == [])
  }

  /** Every delivery of the schedule is the next one of its pipe when its turn comes. */
  ghost predicate Scripted(r: Reader, turns: seq<Turn>, scripts: seq<Script>, st: Settings)
    requires |scripts| == |r.pipes|
    decreases |turns|
  {
    turns != [] ==>
      match turns[0]
      case Reenter => Scripted(r, turns[1..], scripts, st)
      case Ready(i, d) =>
        && i < |r.pipes|
        && IsNext(r.pipes[i], scripts[i], d)
        && var s := Wake(r, i, d, st);
           s.verdict.Pending? ==> Scripted(s.reader, turns[1..], scripts, st)
  }

  /** Scripted schedules are among the possible ones. */
  lemma {:induction false} ScriptedIsPossible(r: Reader, turns: seq<Turn>, scripts: seq<Script>, st: Settings)
    requires |scripts| == |r.pipes| && Scripted(r, turns, scripts, st)
    ensures Possible(r, turns, Delivered(scripts), st)
    decreases |turns|
  {
    if turns != [] {
      match turns[0]
      case Reenter => ScriptedIsPossible(r, turns[1..], scripts, st);
      case Ready(i, d) =>
        var s := Wake(r, i, d, st);
        if s.verdict.Pending? {
          ScriptedIsPossible(s.reader, turns[1..], scripts, st);
        }
    }
  }

  /** The schedule leads to the verdict. */
  ghost predicate EndsIn(r: Reader, turns: seq<Turn>, scripts: seq<Script>, st: Settings, verdict: Verdict)
    requires |scripts| == |r.pipes|
  {
    !verdict.Pending? && Scripted(r, turns, scripts, st) && Read(r, turns, st).verdict == verdict
  }

  // ----- the conditions -----

  /** All contents together are too long. */
  predicate CanExceed(scripts: seq<Script>, names: nat, st: Settings) {
    st.limit.Some? && names + TotalLength(Delivered(scripts)) > st.limit.value
  }

  /** What survives is short enough, and so is the content of each broken pipe alone. */
  predicate CanComplete(scripts: seq<Script>, names: nat, st: Settings) {
    st.limit.Some? ==>
      && names + TotalLength(Surviving(scripts)) <= st.limit.value
      && forall i :: 0 <= i < |scripts| && scripts[i].breaks ==> names + |scripts[i].content| <= st.limit.value
  }

  // ----- no schedule does better -----

  /** A record that has come this far along its script. */
  predicate OnScript(p: PipeRecord, s: Script, names: nat, st: Settings) {
    && RecordOk(p)
    && RecordFaithful(p, s.content)
    && (p.buffer.Failed? ==> s.breaks && !st.ignoreOnError && !st.Exceeds(names + |s.content|))
    && (p.finished && p.buffer.Filled? ==> !s.breaks)
  }

  ghost predicate AllOnScript(pipes: seq<PipeRecord>, scripts: seq<Script>, names: nat, st: Settings) {
    && |scripts| == |pipes|
    && forall i :: 0 <= i < |pipes| ==> OnScript(pipes[i], scripts[i], names, st)
  }

  predicate IsEnd(verdict: Verdict) {
    verdict == Complete || verdict == Abandoned(IoError) || verdict == Abandoned(SizeLimitExceeded)
  }

  lemma WakeStaysOnScript(r: Reader, i: nat, d: Delivery, scripts: seq<Script>, names: nat, st: Settings)
    requires ReaderOk(r, names, st) && AllOnScript(r.pipes, scripts, names, st)
    requires i < |r.pipes| && IsNext(r.pipes[i], scripts[i], d)
    ensures var s := Wake(r, i, d, st);
            && (s.verdict.Pending? || IsEnd(s.verdict))
            && (s.verdict == Abandoned(IoError) ==> d.Broken? && st.ignoreOnError)
            && (s.verdict == Abandoned(SizeLimitExceeded) ==> d.Chunk?)
            && (!s.verdict.Abandoned? ==>
                  ReaderOk(s.reader, names, st) && AllOnScript(s.reader.pipes, scripts, names, st))
            && (s.verdict.Pending? ==> !AllFinished(s.reader.pipes))
            && (s.verdict.Complete? ==> AllFinished(s.reader.pipes))
            && s.reader.pipes == r.pipes[i := s.reader.pipes[i]] && s.reader.pipes[i].mime == r.pipes[i].mime
  {
    var s := Wake(r, i, d, st);
    WakeKeepsReaderOk(r, i, d, names, st);
    if !s.verdict.Abandoned? {
      assert OnScript(s.reader.pipes[i], scripts[i], names, st) by {
        if d.Chunk? && r.pipes[i].buffer.Filled? {
          var data := r.pipes[i].buffer.bytes;
          assert scripts[i].content == data + scripts[i].content[|data|..];
        }
        if d.Broken? {
          SumBounds(r.pipes, Buffered, i);
          assert Buffered(r.pipes[i]) == |scripts[i].content|;
        }
      }
    }
  }

  lemma OnScriptIsFaithful(pipes: seq<PipeRecord>, scripts: seq<Script>, names: nat, st: Settings)
    requires AllOnScript(pipes, scripts, names, st)
    ensures Faithful(pipes, Delivered(scripts))
  {
    forall i | 0 <= i < |pipes| ensures RecordFaithful(pipes[i], Delivered(scripts)[i]) {
      assert OnScript(pipes[i], scripts[i], names, st);
    }
  }

  lemma FrontOf(scripts: seq<Script>)
    requires scripts != []
    ensures var last := |scripts| - 1;
            && Delivered(scripts)[..last] == Delivered(scripts[..last])
            && Surviving(scripts)[..last] == Surviving(scripts[..last])
            && TotalLength(Delivered(scripts)) == TotalLength(Delivered(scripts[..last])) + |scripts[last].content|
            && TotalLength(Surviving(scripts)) == TotalLength(Surviving(scripts[..last])) + |Remainder(scripts[last])|
  {
  }

  /** When all pipes have come to their ends, the survivors are what is buffered and collected. */
  lemma {:induction false} SurvivorsAreKept(pipes: seq<PipeRecord>, scripts: seq<Script>, names: nat, st: Settings)
    requires AllOnScript(pipes, scripts, names, st) && AllFinished(pipes)
    ensures Sum(pipes, Buffered) == TotalLength(Surviving(scripts))
    ensures Collect(pipes) == Some(SurvivingContents(pipes, scripts))
  {
    if pipes != [] {
      var last := |pipes| - 1;
      FrontOf(scripts);
      SurvivorsAreKept(pipes[..last], scripts[..last], names, st);
      assert OnScript(pipes[last], scripts[last], names, st);
    }
  }

  lemma {:induction false} SurvivingStable(a: seq<PipeRecord>, b: seq<PipeRecord>, scripts: seq<Script>)
    requires |a| == |b| == |scripts|
    requires forall i :: 0 <= i < |a| ==> a[i].mime == b[i].mime
    ensures SurvivingContents(a, scripts) == SurvivingContents(b, scripts)
  {
    if a != [] {
      var last := |a| - 1;
      SurvivingStable(a[..last], b[..last], scripts[..last]);
    }
  }

  predicate SomeBreak(scripts: seq<Script>) {
    exists i :: 0 <= i < |scripts| && scripts[i].breaks
  }

  /** Every verdict is one that its condition allows, and a complete reading has exactly the contents of
      the pipes that did not break. */
  lemma ChunkExceeds(r: Reader, i: nat, bytes: Bytes, scripts: seq<Script>, names: nat, st: Settings)
    requires ReaderOk(r, names, st) && AllOnScript(r.pipes, scripts, names, st)
    requires i < |r.pipes| && IsNext(r.pipes[i], scripts[i], Chunk(bytes))
    requires Wake(r, i, Chunk(bytes), st).verdict == Abandoned(SizeLimitExceeded)
    ensures CanExceed(scripts, names, st)
  {
    OnScriptIsFaithful(r.pipes, scripts, names, st);
    BufferedWithChunk(r.pipes, Delivered(scripts), i, bytes);
  }

  lemma CompleteIsAllowed(pipes: seq<PipeRecord>, scripts: seq<Script>, names: nat, st: Settings)
    requires AllFinished(pipes) && AllOnScript(pipes, scripts, names, st)
    ensures st.ignoreOnError ==> !SomeBreak(scripts)
  {
    assert forall k :: 0 <= k < |scripts| ==> OnScript(pipes[k], scripts[k], names, st);
  }

  lemma {:induction false} VerdictIsAllowed(r: Reader, turns: seq<Turn>, scripts: seq<Script>, names: nat, st: Settings)
    requires ReaderOk(r, names, st) && AllOnScript(r.pipes, scripts, names, st)
    requires Scripted(r, turns, scripts, st) && !Read(r, turns, st).verdict.Pending?
    ensures var s := Read(r, turns, st);
            && IsEnd(s.verdict)
            && (s.verdict.Complete? ==>
                  && CanComplete(scripts, names, st) && !(st.ignoreOnError && SomeBreak(scripts))
                  && Collect(s.reader.pipes) == Some(SurvivingContents(r.pipes, scripts)))
            && (s.verdict == Abandoned(IoError) ==> st.ignoreOnError && SomeBreak(scripts))
            && (s.verdict == Abandoned(SizeLimitExceeded) ==> CanExceed(scripts, names, st))
    decreases |turns|
  {
    match turns[0]
    case Reenter => VerdictIsAllowed(r, turns[1..], scripts, names, st);
    case Ready(i, d) =>
      var s := Wake(r, i, d, st);
      WakeStaysOnScript(r, i, d, scripts, names, st);
      SurvivingStable(r.pipes, s.reader.pipes, scripts);
      if s.verdict.Pending? {
        VerdictIsAllowed(s.reader, turns[1..], scripts, names, st);
      } else if s.verdict.Complete? {
        SurvivorsAreKept(s.reader.pipes, scripts, names, st);
        CompleteIsAllowed(s.reader.pipes, scripts, names, st);
      } else if d.Chunk? {
        ChunkExceeds(r, i, d.bytes, scripts, names, st);
      } else {
        assert SomeBreak(scripts) by {
          assert scripts[i].breaks;
        }
      }
  }

  // ----- the schedules that get there -----

  /** The next delivery of a pipe that is not at its end, one byte at a time. */
  function NextOf(p: PipeRecord, s: Script): Delivery
    requires RecordFaithful(p, s.content) && !p.buffer.Failed?
  {
    var rest := Unread(p, s.content);
    if rest != [] then Chunk(rest[..1]) else if s.breaks then Broken else Eof
  }

  lemma NextIsNext(p: PipeRecord, s: Script, names: nat, st: Settings)
    requires OnScript(p, s, names, st) && !p.finished
    ensures !p.buffer.Failed? && IsNext(p, s, NextOf(p, s))
  {
  }

  /** One turn in front of a schedule that leads to the verdict, or gets there at once. */
  lemma TurnFirst(r: Reader, i: nat, d: Delivery, rest: seq<Turn>, scripts: seq<Script>, st: Settings, verdict: Verdict)
    requires |scripts| == |r.pipes| && i < |r.pipes| && IsNext(r.pipes[i], scripts[i], d)
    requires var s := Wake(r, i, d, st);
             if s.verdict.Pending? then EndsIn(s.reader, rest, scripts, st, verdict) else s.verdict == verdict
    requires !verdict.Pending?
    ensures EndsIn(r, [Ready(i, d)] + rest, scripts, st, verdict)
  {
    assert ([Ready(i, d)] + rest)[1..] == rest;
  }

  lemma LessLeft(r: Reader, i: nat, d: Delivery, scripts: seq<Script>, names: nat, st: Settings)
    requires !st.ignoreOnError && ReaderOk(r, names, st) && AllOnScript(r.pipes, scripts, names, st)
    requires i < |r.pipes| && IsNext(r.pipes[i], scripts[i], d)
    requires Faithful(r.pipes, Delivered(scripts)) && Wake(r, i, d, st).verdict.Pending?
    ensures var s := Wake(r, i, d, st);
            && Faithful(s.reader.pipes, Delivered(scripts))
            && ReaderOk(s.reader, names, st)
            && Left(s.reader.pipes, Delivered(scripts)) < Left(r.pipes, Delivered(scripts))
  {
    WakeStaysOnScript(r, i, d, scripts, names, st);
    ReadingMakesProgress(r, i, d, Delivered(scripts), names, st);
  }

  lemma {:induction false} AllReadAll(pipes: seq<PipeRecord>, content: seq<Bytes>)
    requires Faithful(pipes, content)
    requires forall i :: 0 <= i < |pipes| ==> !pipes[i].buffer.Failed? && Unread(pipes[i], content[i]) == []
    ensures Sum(pipes, Buffered) == TotalLength(content)
  {
    if pipes != [] {
      var last := |pipes| - 1;
      AllReadAll(pipes[..last], content[..last]);
    }
  }

  predicate NoneFinished(pipes: seq<PipeRecord>) {
    forall i :: 0 <= i < |pipes| ==> !pipes[i].finished
  }

  /** Delivering everything before any pipe comes to its end. */
  lemma {:induction false} Flood(r: Reader, scripts: seq<Script>, names: nat, st: Settings) returns (turns: seq<Turn>)
    requires !st.ignoreOnError && ReaderOk(r, names, st) && AllOnScript(r.pipes, scripts, names, st)
    requires Faithful(r.pipes, Delivered(scripts))
    requires NoneFinished(r.pipes) && CanExceed(scripts, names, st)
    ensures EndsIn(r, turns, scripts, st, Abandoned(SizeLimitExceeded))
    decreases Left(r.pipes, Delivered(scripts))
  {
    var content := Delivered(scripts);
    assert forall k :: 0 <= k < |r.pipes| ==> OnScript(r.pipes[k], scripts[k], names, st);
    if forall k :: 0 <= k < |r.pipes| ==> Unread(r.pipes[k], content[k]) == [] {
      AllReadAll(r.pipes, content);
      assert false;
    }
    var i :| 0 <= i < |r.pipes| && Unread(r.pipes[i], content[i]) != [];
    NextIsNext(r.pipes[i], scripts[i], names, st);
    var d := NextOf(r.pipes[i], scripts[i]);
    var s := Wake(r, i, d, st);
    WakeStaysOnScript(r, i, d, scripts, names, st);
    assert !s.verdict.Complete? by {
      assert !s.verdict.Abandoned? ==> !s.reader.pipes[i].finished;
    }
    turns := [];
    if s.verdict.Pending? {
      LessLeft(r, i, d, scripts, names, st);
      turns := Flood(s.reader, scripts, names, st);
    }
    TurnFirst(r, i, d, turns, scripts, st, Abandoned(SizeLimitExceeded));
    turns := [Ready(i, d)] + turns;
  }

  /** Reading on when every pipe that breaks has broken. */
  lemma {:induction false} ReadOn(r: Reader, scripts: seq<Script>, names: nat, st: Settings) returns (turns: seq<Turn>)
    requires !st.ignoreOnError && ReaderOk(r, names, st) && AllOnScript(r.pipes, scripts, names, st)
    requires Faithful(r.pipes, Delivered(scripts))
    requires forall k :: 0 <= k < |scripts| && scripts[k].breaks ==> r.pipes[k].finished
    requires !AllFinished(r.pipes) && CanComplete(scripts, names, st)
    ensures EndsIn(r, turns, scripts, st, Complete)
    decreases Left(r.pipes, Delivered(scripts))
  {
    assert forall k :: 0 <= k < |r.pipes| ==> OnScript(r.pipes[k], scripts[k], names, st);
    var i :| 0 <= i < |r.pipes| && !r.pipes[i].finished;
    NextIsNext(r.pipes[i], scripts[i], names, st);
    var d := NextOf(r.pipes[i], scripts[i]);
    var s := Wake(r, i, d, st);
    WakeStaysOnScript(r, i, d, scripts, names, st);
    assert !s.verdict.Abandoned? by {
      if d.Chunk? {
        BufferedWithChunk(r.pipes, Surviving(scripts), i, d.bytes);
      }
    }
    turns := [];
    if s.verdict.Pending? {
      LessLeft(r, i, d, scripts, names, st);
      turns := ReadOn(s.reader, scripts, names, st);
    }
    TurnFirst(r, i, d, turns, scripts, st, Complete);
    turns := [Ready(i, d)] + turns;
  }

  /** No pipe but `a` has anything buffered. */
  predicate OnlyOneBuffered(pipes: seq<PipeRecord>, a: nat) {
    forall k :: 0 <= k < |pipes| && k != a ==> Buffered(pipes[k]) == 0
  }

  lemma {:induction false} SumOfOne(pipes: seq<PipeRecord>, a: nat)
    requires a < |pipes| && OnlyOneBuffered(pipes, a)
    ensures Sum(pipes, Buffered) == Buffered(pipes[a])
  {
    var last := |pipes| - 1;
    if a == last {
      SumOfNone(pipes[..last]);
    } else {
      SumOfOne(pipes[..last], a);
    }
  }

  lemma {:induction false} SumOfNone(pipes: seq<PipeRecord>)
    requires forall k :: 0 <= k < |pipes| ==> Buffered(pipes[k]) == 0
    ensures Sum(pipes, Buffered) == 0
  {
    if pipes != [] {
      SumOfNone(pipes[..|pipes| - 1]);
    }
  }

  /** Reading and breaking the pipes that break one at a time, `a` now, and then all others. */
  lemma {:induction false} OneAtATime(r: Reader, a: nat, scripts: seq<Script>, names: nat, st: Settings)
    returns (turns: seq<Turn>)
    requires !st.ignoreOnError && ReaderOk(r, names, st) && AllOnScript(r.pipes, scripts, names, st)
    requires Faithful(r.pipes, Delivered(scripts))
    requires a < |r.pipes| && OnlyOneBuffered(r.pipes, a) && !r.pipes[a].finished && scripts[a].breaks
    requires CanComplete(scripts, names, st)
    ensures EndsIn(r, turns, scripts, st, Complete)
    decreases Left(r.pipes, Delivered(scripts)), 0
  {
    assert forall k :: 0 <= k < |r.pipes| ==> OnScript(r.pipes[k], scripts[k], names, st);
    NextIsNext(r.pipes[a], scripts[a], names, st);
    var d := NextOf(r.pipes[a], scripts[a]);
    var s := Wake(r, a, d, st);
    WakeStaysOnScript(r, a, d, scripts, names, st);
    SumOfOne(r.pipes, a);
    assert !s.verdict.Abandoned?;
    turns := [];
    if s.verdict.Pending? {
      LessLeft(r, a, d, scripts, names, st);
      turns := Onwards(s.reader, a, scripts, names, st);
    }
    TurnFirst(r, a, d, turns, scripts, st, Complete);
    turns := [Ready(a, d)] + turns;
  }

  /** The same when pipe `a` may just have broken: then it is the turn of the next one. */
  lemma {:induction false} Onwards(r: Reader, a: nat, scripts: seq<Script>, names: nat, st: Settings)
    returns (turns: seq<Turn>)
    requires !st.ignoreOnError && ReaderOk(r, names, st) && AllOnScript(r.pipes, scripts, names, st)
    requires Faithful(r.pipes, Delivered(scripts))
    requires a < |r.pipes| && OnlyOneBuffered(r.pipes, a) && !AllFinished(r.pipes)
    requires scripts[a].breaks || Buffered(r.pipes[a]) == 0
    requires CanComplete(scripts, names, st)
    ensures EndsIn(r, turns, scripts, st, Complete)
    decreases Left(r.pipes, Delivered(scripts)), 1
  {
    assert forall k :: 0 <= k < |r.pipes| ==> OnScript(r.pipes[k], scripts[k], names, st);
    if !r.pipes[a].finished && scripts[a].breaks {
      turns := OneAtATime(r, a, scripts, names, st);
    } else if k :| 0 <= k < |r.pipes| && !r.pipes[k].finished && scripts[k].breaks {
      turns := OneAtATime(r, k, scripts, names, st);
    } else {
      turns := ReadOn(r, scripts, names, st);
    }
  }

  // ----- the result -----

  lemma UntouchedOnScript(pipes: seq<PipeRecord>, scripts: seq<Script>, names: nat, st: Settings)
    requires Untouched(pipes) && |scripts| == |pipes|
    ensures AllOnScript(pipes, scripts, names, st) && Faithful(pipes, Delivered(scripts))
  {
  }

  lemma {:induction false} NothingToRead(r: Reader, turns: seq<Turn>, st: Settings)
    requires r.pipes == []
    ensures Read(r, turns, st).verdict.Pending?
    decreases |turns|
  {
    if turns != [] {
      NothingToRead(r, turns[1..], st);
    }
  }

  /** A schedule that leads to a verdict meets the condition for it. */
  lemma VerdictForced(r: Reader, turns: seq<Turn>, scripts: seq<Script>, names: nat, st: Settings, v: Verdict)
    requires !st.ignoreOnError && ReaderOk(r, names, st) && Untouched(r.pipes) && |scripts| == |r.pipes|
    requires EndsIn(r, turns, scripts, st, v)
    ensures v == Complete || v == Abandoned(SizeLimitExceeded)
    ensures v == Complete ==> CanComplete(scripts, names, st) && r.pipes != []
    ensures v == Complete ==> Collect(Read(r, turns, st).reader.pipes) == Some(SurvivingContents(r.pipes, scripts))
    ensures v.Abandoned? ==> CanExceed(scripts, names, st)
  {
    UntouchedOnScript(r.pipes, scripts, names, st);
    VerdictIsAllowed(r, turns, scripts, names, st);
    if r.pipes == [] { NothingToRead(r, turns, st); }
  }

  /** And if the condition is met there is such a schedule. */
  lemma VerdictReached(r: Reader, scripts: seq<Script>, names: nat, st: Settings)
    requires !st.ignoreOnError && ReaderOk(r, names, st) && Untouched(r.pipes) && |scripts| == |r.pipes|
    ensures r.pipes != [] && CanComplete(scripts, names, st) ==>
              exists turns :: EndsIn(r, turns, scripts, st, Complete)
    ensures CanExceed(scripts, names, st) ==>
              exists turns :: EndsIn(r, turns, scripts, st, Abandoned(SizeLimitExceeded))
  {
    UntouchedOnScript(r.pipes, scripts, names, st);
    if r.pipes != [] && CanComplete(scripts, names, st) {
      var turns := Onwards(r, 0, scripts, names, st);
    }
    if CanExceed(scripts, names, st) {
      var turns := Flood(r, scripts, names, st);
    }
  }

  /** Exactly when some schedule comes to each of the verdicts; no schedule comes to any other, and the
      data of a complete reading do not depend on the schedule. */
  lemma VerdictsExactly(r: Reader, scripts: seq<Script>, names: nat, st: Settings)
    requires !st.ignoreOnError && ReaderOk(r, names, st) && Untouched(r.pipes) && |scripts| == |r.pipes|
    ensures (exists turns :: EndsIn(r, turns, scripts, st, Complete)) <==>
              r.pipes != [] && CanComplete(scripts, names, st)
    ensures (exists turns :: EndsIn(r, turns, scripts, st, Abandoned(SizeLimitExceeded))) <==>
              CanExceed(scripts, names, st)
    ensures forall turns, v :: EndsIn(r, turns, scripts, st, v) ==> v == Complete || v == Abandoned(SizeLimitExceeded)
    ensures forall turns :: EndsIn(r, turns, scripts, st, Complete) ==>
              Collect(Read(r, turns, st).reader.pipes) == Some(SurvivingContents(r.pipes, scripts))
  {
    VerdictReached(r, scripts, names, st);
    forall turns, v | EndsIn(r, turns, scripts, st, v)
      ensures v == Complete || v == Abandoned(SizeLimitExceeded)
      ensures v == Complete ==> CanComplete(scripts, names, st) && r.pipes != []
      ensures v == Complete ==> Collect(Read(r, turns, st).reader.pipes) == Some(SurvivingContents(r.pipes, scripts))
      ensures v.Abandoned? ==> CanExceed(scripts, names, st)
    {
      VerdictForced(r, turns, scripts, names, st, v);
    }
  }

  /** The verdict is the same for all schedules. */
  ghost predicate Decided(r: Reader, scripts: seq<Script>, st: Settings)
    requires |scripts| == |r.pipes|
  {
    forall s, t, v, w :: EndsIn(r, s, scripts, st, v) && EndsIn(r, t, scripts, st, w) ==> v == w
  }

  /** Exactly when the verdict does not depend on the schedule: everything fits, or what survives does
      not, or one pipe that breaks is too long on its own. */
  lemma DecidedExactly(r: Reader, scripts: seq<Script>, names: nat, st: Settings)
    requires !st.ignoreOnError && ReaderOk(r, names, st) && Untouched(r.pipes) && |scripts| == |r.pipes|
    ensures Decided(r, scripts, st) <==>
              || st.limit.None?
              || names + TotalLength(Delivered(scripts)) <= st.limit.value
              || names + TotalLength(Surviving(scripts)) > st.limit.value
              || exists i :: 0 <= i < |scripts| && scripts[i].breaks && names + |scripts[i].content| > st.limit.value
  {
    VerdictsExactly(r, scripts, names, st);
    if r.pipes == [] { SumUntouched(r.pipes); }
    if CanExceed(scripts, names, st) && CanComplete(scripts, names, st) {
      var s :| EndsIn(r, s, scripts, st, Complete);
      var t :| EndsIn(r, t, scripts, st, Abandoned(SizeLimitExceeded));
      assert !Decided(r, scripts, st);
    }
  }

  /** When read errors are not tolerated, whether the reading completes never depends on the schedule: it
      does if no pipe breaks and everything fits. */
  lemma IntolerantVerdict(r: Reader, turns: seq<Turn>, scripts: seq<Script>, names: nat, st: Settings, v: Verdict)
    requires st.ignoreOnError && ReaderOk(r, names, st) && Untouched(r.pipes) && |scripts| == |r.pipes|
    requires EndsIn(r, turns, scripts, st, v)
    ensures v.Complete? || v.Abandoned?
    ensures v.Complete? <==>
              !SomeBreak(scripts) && (st.limit.Some? ==> names + TotalLength(Delivered(scripts)) <= st.limit.value)
  {
    UntouchedOnScript(r.pipes, scripts, names, st);
    VerdictIsAllowed(r, turns, scripts, names, st);
    if !SomeBreak(scripts) {
      assert forall i :: 0 <= i < |scripts| ==> Remainder(scripts[i]) == scripts[i].content;
      assert Surviving(scripts) == Delivered(scripts);
    }
  }

  /** What `SurvivingContents` holds: one entry for each pipe that does not break, and its content. */
  lemma {:induction false} SurvivingContentsAt(pipes: seq<PipeRecord>, scripts: seq<Script>, i: nat)
    requires |scripts| == |pipes| && DistinctTypes(pipes) && i < |pipes|
    ensures SurvivingContents(pipes, scripts).Keys <= set p | p in pipes :: p.mime
    ensures pipes[i].mime in SurvivingContents(pipes, scripts) <==> !scripts[i].breaks
    ensures !scripts[i].breaks ==> SurvivingContents(pipes, scripts)[pipes[i].mime] == scripts[i].content
  {
    var last := |pipes| - 1;
    assert pipes == pipes[..last] + [pipes[last]];
    if i < last {
      SurvivingContentsAt(pipes[..last], scripts[..last], i);
    } else {
      SurvivingKeys(pipes[..last], scripts[..last]);
    }
  }

  lemma {:induction false} SurvivingKeys(pipes: seq<PipeRecord>, scripts: seq<Script>)
    requires |scripts| == |pipes|
    ensures SurvivingContents(pipes, scripts).Keys <= set p | p in pipes :: p.mime
  {
    if pipes != [] {
      var last := |pipes| - 1;
      assert pipes == pipes[..last] + [pipes[last]];
      SurvivingKeys(pipes[..last], scripts[..last]);
    }
  }

  // ----- two schedules -----

  const TIGHT := Settings(OnlyRegular, Some(3), false, None, false)

  const TWO_PIPES := Reader([PipeRecord("a", 1, Unset, false), PipeRecord("b", 2, Unset, false)], 2, 0, 0)

  const ONE_BREAKS := [Script([7], true), Script([8], false)]

  const BREAK_FIRST := [Ready(0, Chunk([7])), Ready(0, Broken), Ready(1, Chunk([8])), Ready(1, Eof)]

  const BREAK_LAST := [Ready(0, Chunk([7])), Ready(1, Chunk([8])), Ready(1, Eof), Ready(0, Broken)]

  /** Two pipes of one byte each, two bytes of names and a limit of three: it matters whether the pipe that
      breaks does so early or late, because its bytes count against the limit until then. */
  lemma TheVerdictCanDependOnTheSchedule()
    ensures ReaderOk(TWO_PIPES, 2, TIGHT) && Untouched(TWO_PIPES.pipes)
    ensures multiset(BREAK_FIRST) == multiset(BREAK_LAST)
    ensures EndsIn(TWO_PIPES, BREAK_FIRST, ONE_BREAKS, TIGHT, Complete)
    ensures EndsIn(TWO_PIPES, BREAK_LAST, ONE_BREAKS, TIGHT, Abandoned(SizeLimitExceeded))
  {
    UntouchedReaderOk(TWO_PIPES.pipes, 2, TIGHT);
    SameInAnyOrder(Ready(0, Chunk([7])), Ready(0, Broken), Ready(1, Chunk([8])), Ready(1, Eof));
    BreakingFirst();
    BreakingLast();
  }

  lemma SameInAnyOrder<T>(a: T, b: T, c: T, d: T)
    ensures multiset([a, b, c, d]) == multiset([a, c, d, b])
  {
    assert [a, b, c, d] == [a] + [b] + [c] + [d] && [a, c, d, b] == [a] + [c] + [d] + [b];
  }

  lemma BreakingFirst()
    ensures EndsIn(TWO_PIPES, BREAK_FIRST, ONE_BREAKS, TIGHT, Complete)
  {
    var r1 := Wake(TWO_PIPES, 0, Chunk([7]), TIGHT).reader;
    var r2 := Wake(r1, 0, Broken, TIGHT).reader;
    var r3 := Wake(r2, 1, Chunk([8]), TIGHT).reader;
    assert r1.bytesRead == 3 && r2.bytesRead == 2 && r3.bytesRead == 3;
    assert r3.pipes[0].finished && !r3.pipes[1].finished;
    assert Wake(r3, 1, Eof, TIGHT).verdict == Complete;
    TurnFirst(r3, 1, Eof, [], ONE_BREAKS, TIGHT, Complete);
    TurnFirst(r2, 1, Chunk([8]), [Ready(1, Eof)] + [], ONE_BREAKS, TIGHT, Complete);
    var rest := [Ready(1, Chunk([8]))] + ([Ready(1, Eof)] + []);
    TurnFirst(r1, 0, Broken, rest, ONE_BREAKS, TIGHT, Complete);
    TurnFirst(TWO_PIPES, 0, Chunk([7]), [Ready(0, Broken)] + rest, ONE_BREAKS, TIGHT, Complete);
    assert [Ready(0, Chunk([7]))] + ([Ready(0, Broken)] + rest) == BREAK_FIRST;
  }

  lemma BreakingLast()
    ensures EndsIn(TWO_PIPES, BREAK_LAST, ONE_BREAKS, TIGHT, Abandoned(SizeLimitExceeded))
  {
    var rest := [Ready(1, Eof), Ready(0, Broken)];
    var r1 := Wake(TWO_PIPES, 0, Chunk([7]), TIGHT).reader;
    assert r1.bytesRead == 3;
    TurnFirst(r1, 1, Chunk([8]), rest, ONE_BREAKS, TIGHT, Abandoned(SizeLimitExceeded));
    TurnFirst(TWO_PIPES, 0, Chunk([7]), [Ready(1, Chunk([8]))] + rest, ONE_BREAKS, TIGHT, Abandoned(SizeLimitExceeded));
    assert [Ready(0, Chunk([7]))] + ([Ready(1, Chunk([8]))] + rest) == BREAK_LAST;
  }
}
