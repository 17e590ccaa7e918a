/** The life of a copy among other clients: in every run with a compositor it is read, published exactly
    once, and never copied again from ourselves. */
module Survival {
  import opened Protocol
  import opened PipeReader
  import opened History
  import opened ClientSpec
  import opened ClientInvariant
  import opened Resolution
  import opened ClientRuns
  import opened ClientTheorems
  import opened Progress
  import opened Persistence
  import opened Budget
  import opened Compositor
  import opened NeverAgain
  import opened OthersAreRead

  // ----- runs in parts -----

  lemma {:induction false} AfterParts(s: System, a: seq<Move>, b: seq<Move>, st: Settings)
    ensures After(s, a + b, st) == After(After(s, a, st), b, st)
  {
    if b == [] {
      assert a + b == a;
    } else {
      var last := |b| - 1;
      assert (a + b)[..|a + b| - 1] == a + b[..last];
      AfterParts(s, a, b[..last], st);
    }
  }

  lemma {:induction false} CanRunParts(s: System, a: seq<Move>, b: seq<Move>, st: Settings, written: Content)
    requires CanRun(s, a + b, st, written) && AllPipesNew(s, a + b, st)
    ensures CanRun(s, a, st, written) && AllPipesNew(s, a, st) && CanRun(After(s, a, st), b, st, written)
  {
    if b == [] {
      assert a + b == a;
    } else {
      var last := |b| - 1;
      assert (a + b)[..|a + b| - 1] == a + b[..last];
      CanRunParts(s, a, b[..last], st, written);
      AfterParts(s, a, b[..last], st);
    }
  }

  /** What the client does in a run of the system. */
  function StepsOf(ms: seq<Move>): seq<Action> {
    if ms == [] then []
    else
      var last := ms[|ms| - 1];
      StepsOf(ms[..|ms| - 1]) + if last.ClientStep? then [last.action] else []
  }

  lemma FollowOneMore(c: Client, actions: seq<Action>, a: Action, st: Settings, written: Content)
    ensures Follow(c, actions + [a], st) == Apply(Follow(c, actions, st), a, st)
    ensures LegalFrom(c, actions + [a], st, written) <==>
              LegalFrom(c, actions, st, written) && Legal(Follow(c, actions, st), a, written)
  {
    assert (actions + [a])[..|actions|] == actions;
  }

  lemma MoveKeepsClient(s: System, m: Move, st: Settings)
    ensures Do(s, m, st).client == if m.ClientStep? then Apply(s.client, m.action, st) else s.client
  {
  }

  /** Seen from the client, a run of the system is a legal run. */
  lemma {:induction false} ClientFollows(s: System, ms: seq<Move>, st: Settings, written: Content)
    requires SystemOk(s, st, written) && CanRun(s, ms, st, written)
    ensures After(s, ms, st).client == Follow(s.client, StepsOf(ms), st)
    ensures LegalFrom(s.client, StepsOf(ms), st, written)
  {
    if ms != [] {
      var front, m := ms[..|ms| - 1], ms[|ms| - 1];
      ClientFollows(s, front, st, written);
      RunOk(s, front, st, written, 0, Regular);
      MoveKeepsClient(After(s, front, st), m, st);
      if m.ClientStep? {
        StepIsLegal(After(s, front, st), m.action, st, written);
        FollowOneMore(s.client, StepsOf(front), m.action, st, written);
      } else {
        assert StepsOf(ms) == StepsOf(front);
      }
    }
  }

  // ----- the course of a copy -----

  /** A run in which a copy is taken up, its roundtrip is answered, and it is read. */
  datatype Course = Course(before: seq<Move>, copied: Action, between: seq<Move>, answered: Action, after: seq<Move>) {
    function ToTheCopy(): seq<Move> {
      before + [ClientStep(copied)]
    }

    function ToTheAnswer(): seq<Move> {
      ToTheCopy() + between
    }

    function Whole(): seq<Move> {
      ToTheAnswer() + ([ClientStep(answered)] + after)
    }
  }

  /** The system before the copy is dispatched, before the roundtrip is answered, and after that. */
  datatype Stages = Stages(s0: System, s1: System, s2: System, s3: System)

  ghost predicate Goes(run: Course, g: Stages, st: Settings, written: Content) {
    && CanRun(START, run.Whole(), st, written) && AllPipesNew(START, run.Whole(), st)
    && g.s0 == After(START, run.before, st)
    && g.s1 == After(START, run.ToTheAnswer(), st)
    && g.s2 == Do(g.s1, ClientStep(run.answered), st)
    && g.s3 == After(g.s2, run.after, st)
  }

  lemma OneMove(s: System, m: Move, st: Settings, written: Content)
    ensures After(s, [m], st) == Do(s, m, st)
    ensures CanRun(s, [m], st, written) <==> CanMove(s, m, written)
  {
    assert [m][..0] == [];
  }

  lemma CourseParts(run: Course, g: Stages, st: Settings, written: Content)
    requires Goes(run, g, st, written)
    ensures CanRun(START, run.before, st, written) && CanMove(g.s0, ClientStep(run.copied), written)
    ensures CanRun(START, run.ToTheAnswer(), st, written) && AllPipesNew(START, run.ToTheAnswer(), st)
    ensures g.s1 == After(Do(g.s0, ClientStep(run.copied), st), run.between, st)
    ensures CanRun(Do(g.s0, ClientStep(run.copied), st), run.between, st, written)
    ensures CanMove(g.s1, ClientStep(run.answered), written) && CanRun(g.s2, run.after, st, written)
  {
    var copy, answer := [ClientStep(run.copied)], [ClientStep(run.answered)];
    CanRunParts(START, run.ToTheAnswer(), answer + run.after, st, written);
    AnswerParts(run, g, st, written);
    CanRunParts(START, run.ToTheCopy(), run.between, st, written);
    AfterParts(START, run.ToTheCopy(), run.between, st);
    CanRunParts(START, run.before, copy, st, written);
    AfterParts(START, run.before, copy, st);
    OneMove(g.s0, ClientStep(run.copied), st, written);
  }

  lemma {:induction false} RunStartsWith(s: System, m: Move, ms: seq<Move>, st: Settings, written: Content)
    requires CanRun(s, [m] + ms, st, written)
    ensures CanMove(s, m, written) && CanRun(Do(s, m, st), ms, st, written)
  {
    OneMove(s, m, st, written);
    if ms == [] {
      assert [m] + ms == [m];
    } else {
      var last := |ms| - 1;
      assert ([m] + ms)[..last + 1] == [m] + ms[..last];
      RunStartsWith(s, m, ms[..last], st, written);
      AfterParts(s, [m], ms[..last], st);
    }
  }

  lemma AnswerParts(run: Course, g: Stages, st: Settings, written: Content)
    requires Goes(run, g, st, written) && CanRun(g.s1, [ClientStep(run.answered)] + run.after, st, written)
    ensures CanMove(g.s1, ClientStep(run.answered), written) && CanRun(g.s2, run.after, st, written)
  {
    RunStartsWith(g.s1, ClientStep(run.answered), run.after, st, written);
  }

  /** The selection is another client's, and it is left to be read: until the roundtrip is answered nothing
      touches it and none of its pipes is passed back to us. */
  ghost predicate LeftToUs(run: Course, g: Stages, n: SeatName, ty: SelectionType, o: OfferId, st: Settings) {
    && StepsOf(run.between) == [] && run.answered.RoundtripDone? && !TouchedIn(run.answered.batch, n, ty)
    && IsForeign(g.s1.server, o)
    && (IsReading(g.s1.client.world, n, ty) ==>
          !PassedBack(g.s1.client.world, run.answered.batch, StalePastes(START, run.ToTheAnswer(), st), n, ty))
    && var c' := g.s2.client; !c'.phase.Stopped? && !c'.phase.Crashed?
  }

  /** Until the answer the client does nothing, and then another client's copy is not taken for ours. */
  lemma CopyIsNotOurs(run: Course, g: Stages, k: nat, n: SeatName, ty: SelectionType, o: OfferId, ms: seq<Mime>,
                      st: Settings, written: Content)
    requires Goes(run, g, st, written) && LeftToUs(run, g, n, ty, o, st)
    requires Copied(g.s0.client, run.copied, k, n, ty, o, st)
    requires ms == AdvertisedBy(g.s0.client.world.history, run.copied.batch, k, o)
    requires CanBeMade(ms, n, ty, st, run.copied.env)
    ensures SystemOk(g.s0, st, written) && Legal(g.s0.client, run.copied, written)
    ensures g.s1.client == Apply(g.s0.client, run.copied, st)
    ensures AnsweredByOthers(g.s1.client, run.answered, n, ty, st, written)
  {
    CourseParts(run, g, st, written);
    StartOk(st, written);
    RunOk(START, run.before, st, written, n, ty);
    StepIsLegal(g.s0, run.copied, st, written);
    StepOk(g.s0, run.copied, st, written);
    ClientFollows(Do(g.s0, ClientStep(run.copied), st), run.between, st, written);
    AllPipesMade(ms, n, ty, st, run.copied.env);
    NewSelectionIsAskedFor(g.s0.client, run.copied, k, n, ty, o, st, written);
    var pipes := Made(n, ty, ms, st, run.copied.env).pipes;
    OthersAreRead.OthersAreRead(run.ToTheAnswer(), g.s1, run.answered, n, ty, pipes, st, written);
  }

  // ----- no more than that -----

  lemma {:induction false} PostsAreCounted(ps: seq<Publication>, n: SeatName, ty: SelectionType)
    ensures |PublishedFor(ps, n, ty)| == Published(ps, n, ty)
  {
    if ps != [] {
      PostsAreCounted(ps[..|ps| - 1], n, ty);
    }
  }

  /** The foreign selections of a slot that were dispatched. */
  function ForeignSelections(s: System, n: SeatName, ty: SelectionType): nat {
    Selections(s.client.world.history, n, ty, ForeignOffers(s.server))
  }

  /** From a selection with nothing under way, every later publication is paid for by a later selection of
      another client. */
  lemma LaterOnesArePaidFor(s: System, later: seq<Move>, n: SeatName, ty: SelectionType, st: Settings, written: Content)
    requires SystemOk(s, st, written) && CanRun(s, later, st, written) && At(s.client.world, n, ty) == Some(Waiting)
    ensures var s' := After(s, later, st);
            |Posts(s'.client.world, n, ty)| - |Posts(s.client.world, n, ty)|
            <= ForeignSelections(s', n, ty) - ForeignSelections(s, n, ty)
  {
    RunOk(s, later, st, written, n, ty);
    PostsAreCounted(s.client.world.published, n, ty);
    PostsAreCounted(After(s, later, st).client.world.published, n, ty);
  }

  /** A copy survives among other clients. In every run with a compositor, another client's copy that can be
      asked for, is left alone and is read without error is published exactly once, with all its types and
      bytes. And that is all: in no continuation of the run does our own announcement of it lead to another
      publication, because each one is paid for by a selection that another client makes later. */
  lemma ACopySurvivesAmongOthers(run: Course, g: Stages, k: nat, n: SeatName, ty: SelectionType, o: OfferId,
                                 ms: seq<Mime>, pipes: seq<PipeRecord>, st: Settings, written: Content)
    requires Goes(run, g, st, written) && LeftToUs(run, g, n, ty, o, st)
    requires Copied(g.s0.client, run.copied, k, n, ty, o, st)
    requires ms == AdvertisedBy(g.s0.client.world.history, run.copied.batch, k, o)
    requires CanBeMade(ms, n, ty, st, run.copied.env) && pipes == Made(n, ty, ms, st, run.copied.env).pipes
    requires ReadToTheEnd(g.s2.client, StepsOf(run.after), g.s3.client, n, ty, NewReader(pipes, ms), st, written)
    requires !TooMuch(pipes, ms, o, st, written)
    ensures PublishesCopy(Posts(g.s0.client.world, n, ty), Posts(g.s3.client.world, n, ty), o, ms, st, written)
    ensures forall later :: CanRun(g.s3, later, st, written) ==>
              var s' := After(g.s3, later, st);
              |Posts(s'.client.world, n, ty)| - |Posts(g.s3.client.world, n, ty)|
              <= ForeignSelections(s', n, ty) - ForeignSelections(g.s3, n, ty)
  {
    CourseParts(run, g, st, written);
    CopyIsNotOurs(run, g, k, n, ty, o, ms, st, written);
    EndsWell(run, g, st, written);
    ACopySurvives(g.s0.client, run.copied, k, run.answered, StepsOf(run.after), n, ty, o, ms, pipes,
                  g.s1.client, g.s2.client, g.s3.client, st, written);
    forall later | CanRun(g.s3, later, st, written)
      ensures var s' := After(g.s3, later, st);
              |Posts(s'.client.world, n, ty)| - |Posts(g.s3.client.world, n, ty)|
              <= ForeignSelections(s', n, ty) - ForeignSelections(g.s3, n, ty)
    {
      LaterOnesArePaidFor(g.s3, later, n, ty, st, written);
    }
  }

  lemma EndsWell(run: Course, g: Stages, st: Settings, written: Content)
    requires Goes(run, g, st, written)
    ensures SystemOk(g.s3, st, written) && g.s2.client == Apply(g.s1.client, run.answered, st)
    ensures g.s3.client == Follow(g.s2.client, StepsOf(run.after), st)
  {
    CourseParts(run, g, st, written);
    StartOk(st, written);
    RunOk(START, run.ToTheAnswer(), st, written, 0, Regular);
    StepOk(g.s1, run.answered, st, written);
    RunOk(g.s2, run.after, st, written, 0, Regular);
    ClientFollows(g.s2, run.after, st, written);
  }

  /** Without a later copy on the seat and type, that is none at all. */
  lemma NothingMoreIsPublished(s: System, later: seq<Move>, n: SeatName, ty: SelectionType, st: Settings,
                               written: Content)
    requires SystemOk(s, st, written) && CanRun(s, later, st, written) && At(s.client.world, n, ty) == Some(Waiting)
    requires NoCopy(later, n, ty)
    requires forall e :: e in s.queue && Selects(e, n, ty) && e.maybeOffer.Some? ==>
               e.maybeOffer.value !in ForeignOffers(s.server)
    ensures |Posts(After(s, later, st).client.world, n, ty)| <= |Posts(s.client.world, n, ty)|
  {
    var s' := After(s, later, st);
    LaterOnesArePaidFor(s, later, n, ty, st, written);
    RunKeepsAllSelections(s, later, st, written, n, ty);
    SelectionsExtend(s.client.world.history, s.queue, n, ty, ForeignOffers(s.server));
    SelectionsGrow(s'.client.world.history, s'.queue, n, ty, ForeignOffers(s'.server));
  }
}
