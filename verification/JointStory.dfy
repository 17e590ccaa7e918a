/** The story of `Example` among other clients: a whole run of client and compositor, from the start, that
    meets all assumptions under which a copy survives. */
module JointStory {
  import opened Protocol
  import opened MimeAccounting
  import opened PipeReader
  import opened ClientSpec
  import opened ClientInvariant
  import opened ClientRuns
  import opened ClientTheorems
  import opened Wire
  import opened Requested
  import opened Progress
  import opened Persistence
  import opened Compositor
  import opened NeverAgain
  import opened OthersAreRead
  import opened Survival
  import opened Example

  // ----- which requests a step sends -----

  /** A step that asks for nothing makes no pipes. */
  lemma NoPipesMade(s: System, a: Action, st: Settings)
    requires AsksNothing(s.client.world.out, Apply(s.client, a, st).world.out)
    ensures PipesAreNew(s, a, st)
  {
    var out, out' := s.client.world.out, Apply(s.client, a, st).world.out;
    forall i | |out| <= i < |out'| ensures !out'[i].Receive? {
      assert out'[|out|..][i - |out|] == out'[i];
    }
  }

  lemma DispatchOne(w: World, e: Event, st: Settings, env: Env)
    ensures DispatchAll(w, [e], st, env) == Dispatch(w, e, st, env)
  {
    assert [e][..0] == [];
  }

  lemma AnswerAsksNothing(c: Client, env: Env)
    requires c.phase.InRoundtrip? && Apply(c, RoundtripDone([Done], env), SETTINGS).phase.Idle?
    requires !AnyFlag(c.world)
    ensures AsksNothing(c.world.out, Apply(c, RoundtripDone([Done], env), SETTINGS).world.out)
  {
    var w1 := DispatchAll(c.world, [Done], SETTINGS, env);
    DispatchOne(c.world, Done, SETTINGS, env);
    assert !AnyFlag(w1);
    ResolvingAsksNothing(w1, c.phase.awaiting);
    var w2 := ResolveAll(w1, c.phase.awaiting).world;
    PublishingAsksNothing(w2, Slots(env.order(w2.seats.Keys)));
    AsksNothingTwice(w1.out, w2.out, PublishAll(w2, Slots(env.order(w2.seats.Keys))).out);
  }

  lemma PipeAsksNothing(c: Client, a: Action)
    requires ClientOk(c, SETTINGS, Written) && Legal(c, a, Written) && a.PipeReady?
    ensures AsksNothing(c.world.out, Apply(c, a, SETTINGS).world.out)
  {
    DeliverOk(c.world, a.seat, a.ty, a.pipe, a.delivery, SETTINGS, Written);
    DeliverSends(c.world, a.seat, a.ty, a.pipe, a.delivery, SETTINGS);
    NothingOnOffers(Apply(c, a, SETTINGS).world.out[|c.world.out|..]);
  }

  // ----- what the copy makes the client ask for -----

  lemma AnnouncedSendsNothing(env: Env)
    ensures DispatchAll(WITH_SEAT, ANNOUNCED, SETTINGS, env).out == []
  {
    var one, two := ANNOUNCED[..1], ANNOUNCED[..2];
    assert two[..1] == one && one == [DataOffer(0, 5)] && two[1] == OfferedType(0, 5, "a");
    var w1 := DispatchAll(WITH_SEAT, one, SETTINGS, env);
    DispatchOne(WITH_SEAT, DataOffer(0, 5), SETTINGS, env);
    var w2 := DispatchAll(WITH_SEAT, two, SETTINGS, env);
    assert w2 == Dispatch(w1, OfferedType(0, 5, "a"), SETTINGS, env);
    var e := Selected(0, Regular, Some(5));
    assert DispatchAll(WITH_SEAT, ANNOUNCED, SETTINGS, env) == Dispatch(w2, e, SETTINGS, env);
    assert w2.seats[0].offers[5] == Advertise(NEW_OFFER, "a", SETTINGS);
    SelectedSends(w2, e, SETTINGS, env);
    assert w2.out == [] && At(w2, 0, Regular) == Some(Waiting);
  }

  lemma OneSeat(ns: seq<SeatName>)
    requires Lists(ns, {0})
    ensures ns == [0] && Slots(ns) == [Slot(0, Regular), Slot(0, Primary)]
  {
    assert |ns| >= 2 ==> ns[0] != ns[1];
    assert 0 in Elements(ns) && forall i :: 0 <= i < |ns| ==> ns[i] in Elements(ns);
    assert ns == [0] && ns[..0] == [];
  }

  lemma MadeForTheCopy(env: Env)
    requires EnvOk(env) && env.open == Open
    ensures var made := Made(0, Regular, ["a"], SETTINGS, env); !made.error && made.pipes == [THE_PIPE]
    ensures Receives(5, [THE_PIPE]) == [Receive(5, "a", 9)]
  {
    OnePipe(env);
    CopyHappens(env);
    AllPipesMade(["a"], 0, Regular, SETTINGS, env);
  }

  lemma RegularAsks(w: World, env: Env)
    requires EnvOk(env) && env.open == Open && w.out == [] && At(w, 0, Primary) == None
    requires At(w, 0, Regular) == Some(NewlyNamed(5, ["a"], 1))
    ensures var (w1, awaiting) := Prepare(w, 0, Regular, SETTINGS, env);
            && w1.out == [Receive(5, "a", 9)] && awaiting == [Awaiting(0, Regular, [THE_PIPE])]
            && At(w1, 0, Primary) == None
  {
    MadeForTheCopy(env);
    PrepareReadingOut(w, 0, Regular, SETTINGS, env, Made(0, Regular, ["a"], SETTINGS, env));
    PrepareAsks(w, 0, Regular, 5, ["a"], 1, SETTINGS, env);
    PrepareFrame(w, 0, Regular, SETTINGS, env, 0, Primary);
  }

  lemma TwoSlots(w: World, env: Env)
    ensures var (w1, a) := Prepare(w, 0, Regular, SETTINGS, env);
            At(w1, 0, Primary) == None ==>
              PrepareAll(w, [Slot(0, Regular), Slot(0, Primary)], SETTINGS, env) == (w1, a)
  {
    var slots := [Slot(0, Regular), Slot(0, Primary)];
    var one := slots[..1];
    assert one == [Slot(0, Regular)] && one[..0] == [];
    var (w1, a) := Prepare(w, 0, Regular, SETTINGS, env);
    assert [] + a == a && a + [] == a;
    assert PrepareAll(w, one, SETTINGS, env) == (w1, a);
  }

  lemma TurnSends(w: World, env: Env)
    requires EnvOk(env) && env.open == Open && w.out == [] && w.seats.Keys == {0} && At(w, 0, Primary) == None
    requires At(w, 0, Regular) == Some(NewlyNamed(5, ["a"], 1))
    ensures TakeTurn(w, SETTINGS, env).world.out == [Receive(5, "a", 9), Sync]
  {
    assert Lists(env.order(w.seats.Keys), w.seats.Keys);
    OneSeat(env.order(w.seats.Keys));
    RegularAsks(w, env);
    TwoSlots(w, env);
  }

  /** The copy makes the client ask for the data of its one type, and then for a roundtrip. */
  lemma CopyAsks(env: Env, c: Client)
    requires EnvOk(env) && env.open == Open && c == Apply(Client(WITH_SEAT, Idle), Events(ANNOUNCED, env), SETTINGS)
    ensures ClientOk(c, SETTINGS, Written) && c.phase.InRoundtrip?
    ensures c.world.out == [Receive(5, "a", 9), Sync]
  {
    var c0, a := Client(WITH_SEAT, Idle), Events(ANNOUNCED, env);
    SeatAppears(env);
    CopyHappens(env);
    MadeForTheCopy(env);
    NewSelectionIsAskedFor(c0, a, 2, 0, Regular, 5, SETTINGS, Written);
    ApplyOk(c0, a, SETTINGS, Written);
    var w1 := DispatchAll(WITH_SEAT, ANNOUNCED, SETTINGS, env);
    AnnouncedSendsNothing(env);
    AnnouncedNames(env);
    TurnSends(w1, env);
  }

  lemma AnnouncedNames(env: Env)
    requires EnvOk(env) && env.open == Open
    ensures var w := DispatchAll(WITH_SEAT, ANNOUNCED, SETTINGS, env);
            && w.seats.Keys == {0} && At(w, 0, Primary) == None && At(w, 0, Regular) == Some(NewlyNamed(5, ["a"], 1))
  {
    SeatAppears(env);
    CopyHappens(env);
    OneName();
    var a := Events(ANNOUNCED, env);
    BatchTakesUp(WITH_SEAT, [], ANNOUNCED, 2, 0, Regular, 5, SETTINGS, env, Written);
    OnlyTheSeat(env);
  }

  lemma OnlyTheSeat(env: Env)
    ensures var w := DispatchAll(WITH_SEAT, ANNOUNCED, SETTINGS, env); w.seats.Keys == {0} && At(w, 0, Primary) == None
  {
    var one, two := ANNOUNCED[..1], ANNOUNCED[..2];
    assert two[..1] == one && one == [DataOffer(0, 5)] && two[1] == OfferedType(0, 5, "a");
    DispatchOne(WITH_SEAT, DataOffer(0, 5), SETTINGS, env);
    var w1 := DispatchAll(WITH_SEAT, one, SETTINGS, env);
    assert w1.seats.Keys == {0} && At(w1, 0, Primary) == None;
    var w2 := DispatchAll(WITH_SEAT, two, SETTINGS, env);
    assert w2 == Dispatch(w1, two[1], SETTINGS, env) && w2.seats.Keys == {0} && At(w2, 0, Primary) == None;
    var w3 := DispatchAll(WITH_SEAT, ANNOUNCED, SETTINGS, env);
    assert w3 == Dispatch(w2, Selected(0, Regular, Some(5)), SETTINGS, env);
  }

  // ----- the run -----

  ghost predicate RunsTo(ms: seq<Move>, s: System) {
    && CanRun(START, ms, SETTINGS, Written) && AllPipesNew(START, ms, SETTINGS) && s == After(START, ms, SETTINGS)
  }

  lemma OneMoreMove(ms: seq<Move>, s: System, m: Move)
    requires RunsTo(ms, s) && CanMove(s, m, Written) && (m.ClientStep? ==> PipesAreNew(s, m.action, SETTINGS))
    ensures RunsTo(ms + [m], Do(s, m, SETTINGS))
  {
    assert (ms + [m])[..|ms|] == ms;
  }

  const SERVER := Server(0, {0}, map[Slot(0, Regular) := Some(5)], map[5 := Slot(0, Regular)], map[5 := Foreign], {})

  const SERVE := Serve(0, [], false, NoFault)

  function Before(env: Env): seq<Move> {
    [Announce(0, true)] + [ClientStep(Events(SEEN, env))] + [Copy(0, Regular, 5, ["a"])]
  }

  /** The seat is announced, and another client copies. */
  lemma CopyArrives(env: Env)
    requires EnvOk(env)
    ensures RunsTo(Before(env), System(Client(WITH_SEAT, Idle), SERVER, ANNOUNCED))
  {
    assert RunsTo([], START);
    OneMoreMove([], START, Announce(0, true));
    assert [] + [Announce(0, true)] == [Announce(0, true)];
    var s1 := System(INITIAL, Server(0, {0}, map[], map[], map[], {}), SEEN);
    assert Do(START, Announce(0, true), SETTINGS) == s1;
    var seen := Events(SEEN, env);
    var s2 := System(Client(WITH_SEAT, Idle), s1.server, []);
    SeatIsAdded(env);
    SeatTurn(env);
    assert Do(s1, ClientStep(seen), SETTINGS) == s2;
    NoPipesMade(s1, seen, SETTINGS);
    OneMoreMove([Announce(0, true)], s1, ClientStep(seen));
    CopyIsSent(s2);
    OneMoreMove([Announce(0, true)] + [ClientStep(seen)], s2, Copy(0, Regular, 5, ["a"]));
  }

  lemma CopyIsSent(s: System)
    requires s == System(Client(WITH_SEAT, Idle), Server(0, {0}, map[], map[], map[], {}), [])
    ensures Do(s, Copy(0, Regular, 5, ["a"]), SETTINGS) == System(s.client, SERVER, ANNOUNCED)
  {
    assert OfferedTypes(0, 5, ["a"]) == [OfferedType(0, 5, "a")];
  }

  lemma QueueIsDispatched(s: System, env: Env)
    requires EnvOk(env) && s.client.phase.Idle?
    ensures CanMove(s, ClientStep(Events(s.queue, env)), Written)
    ensures Do(s, ClientStep(Events(s.queue, env)), SETTINGS) ==
              System(Apply(s.client, Events(s.queue, env), SETTINGS), s.server, [])
  {
  }

  lemma CopyHasNewPipes(s: System, a: Action, s': System)
    requires s' == Do(s, ClientStep(a), SETTINGS) && s'.server == SERVER && s'.queue == []
    requires s'.client.world.out == [Receive(5, "a", 9), Sync]
    ensures PipesAreNew(s, a, SETTINGS)
  {
  }

  lemma CopyIsDispatched(ms: seq<Move>, env: Env, c: Client)
    requires EnvOk(env) && env.open == Open && c == Apply(Client(WITH_SEAT, Idle), Events(ANNOUNCED, env), SETTINGS)
    requires RunsTo(ms, System(Client(WITH_SEAT, Idle), SERVER, ANNOUNCED))
    ensures RunsTo(ms + [ClientStep(Events(ANNOUNCED, env))], System(c, SERVER, []))
    ensures ClientOk(c, SETTINGS, Written) && c.phase.InRoundtrip? && c.world.out == [Receive(5, "a", 9), Sync]
  {
    var s0, copied := System(Client(WITH_SEAT, Idle), SERVER, ANNOUNCED), Events(ANNOUNCED, env);
    CopyAsks(env, c);
    QueueIsDispatched(s0, env);
    CopyHasNewPipes(s0, copied, System(c, SERVER, []));
    OneMoreMove(ms, s0, ClientStep(copied));
  }

  lemma RequestIsServed(s: System)
    requires s.server == SERVER && s.client.world.out == [Receive(5, "a", 9), Sync] && s.queue == []
    ensures Do(s, SERVE, SETTINGS) == s.(server := SERVER.(cursor := 1)) && CanMove(s, SERVE, Written)
  {
  }

  lemma RoundtripIsServed(s: System)
    requires s.server == SERVER.(cursor := 1) && s.client.world.out == [Receive(5, "a", 9), Sync] && s.queue == []
    ensures Do(s, SERVE, SETTINGS) == System(s.client, SERVER.(cursor := 2), [Done]) && CanMove(s, SERVE, Written)
  {
    assert forall o :: !IsOwnCurrent(s.server, o);
    var none: seq<Event> := [];
    assert none + [Done] == [Done];
  }

  /** The copy is dispatched, the compositor serves both requests, and answers the roundtrip. */
  lemma CopyIsServed(ms: seq<Move>, env: Env, c: Client)
    requires EnvOk(env) && env.open == Open && c == Apply(Client(WITH_SEAT, Idle), Events(ANNOUNCED, env), SETTINGS)
    requires RunsTo(ms, System(Client(WITH_SEAT, Idle), SERVER, ANNOUNCED))
    ensures RunsTo(ms + [ClientStep(Events(ANNOUNCED, env))] + [SERVE] + [SERVE],
                   System(c, SERVER.(cursor := 2), [Done]))
    ensures ClientOk(c, SETTINGS, Written) && c.phase.InRoundtrip?
  {
    CopyIsDispatched(ms, env, c);
    var ms1 := ms + [ClientStep(Events(ANNOUNCED, env))];
    var s1, s2 := System(c, SERVER, []), System(c, SERVER.(cursor := 1), []);
    RequestIsServed(s1);
    OneMoreMove(ms1, s1, SERVE);
    RoundtripIsServed(s2);
    OneMoreMove(ms1 + [SERVE], s2, SERVE);
  }

  /** The answer is dispatched, and the pipe is read to its end. */
  lemma CopyIsReadByUs(ms: seq<Move>, s1: System, env: Env, c2: Client, c3: Client)
    requires EnvOk(env) && RunsTo(ms, s1) && s1.queue == [Done] && s1.client.phase.InRoundtrip?
    requires ClientOk(s1.client, SETTINGS, Written) && ClientOk(c2, SETTINGS, Written)
    requires c2 == Apply(s1.client, RoundtripDone([Done], env), SETTINGS) && c2.phase.Idle?
    requires c3 == Follow(c2, THE_REST, SETTINGS) && LegalFrom(c2, THE_REST, SETTINGS, Written)
    requires Apply(c2, THE_REST[0], SETTINGS).phase.Idle?
    ensures var answered := ClientStep(RoundtripDone([Done], env));
            RunsTo(ms + [answered] + [ClientStep(THE_REST[0])] + [ClientStep(THE_REST[1])], System(c3, s1.server, []))
  {
    var answered := RoundtripDone([Done], env);
    assert !AnyFlag(s1.client.world) by {
      forall n | n in s1.client.world.seats
        ensures !s1.client.world.seats[n].gotNew.regular && !s1.client.world.seats[n].gotNew.primary
      {
        assert !Flag(s1.client.world, n, Regular) && !Flag(s1.client.world, n, Primary);
      }
    }
    AnswerAsksNothing(s1.client, env);
    NoPipesMade(s1, answered, SETTINGS);
    OneMoreMove(ms, s1, ClientStep(answered));
    var s2 := System(c2, s1.server, []);
    assert [Done][1..] == [];
    assert Do(s1, ClientStep(answered), SETTINGS) == s2;
    RestIsDone(ms + [ClientStep(answered)], s2, c3);
  }

  lemma RestIsDone(ms: seq<Move>, s2: System, c3: Client)
    requires RunsTo(ms, s2) && ClientOk(s2.client, SETTINGS, Written)
    requires c3 == Follow(s2.client, THE_REST, SETTINGS) && LegalFrom(s2.client, THE_REST, SETTINGS, Written)
    requires s2.client.phase.Idle? && Apply(s2.client, THE_REST[0], SETTINGS).phase.Idle?
    ensures RunsTo(ms + [ClientStep(THE_REST[0])] + [ClientStep(THE_REST[1])], System(c3, s2.server, s2.queue))
  {
    var first := THE_REST[..1];
    assert first[..0] == [] && THE_REST == first + [THE_REST[1]];
    var c := Apply(s2.client, THE_REST[0], SETTINGS);
    assert Follow(s2.client, first, SETTINGS) == c;
    ApplyOk(s2.client, THE_REST[0], SETTINGS, Written);
    PipeAsksNothing(s2.client, THE_REST[0]);
    NoPipesMade(s2, THE_REST[0], SETTINGS);
    OneMoreMove(ms, s2, ClientStep(THE_REST[0]));
    var s := System(c, s2.server, s2.queue);
    PipeAsksNothing(c, THE_REST[1]);
    NoPipesMade(s, THE_REST[1], SETTINGS);
    OneMoreMove(ms + [ClientStep(THE_REST[0])], s, ClientStep(THE_REST[1]));
  }

  function TheCourse(env: Env): Course {
    Course(Before(env), Events(ANNOUNCED, env), [SERVE] + [SERVE], RoundtripDone([Done], env),
           [ClientStep(THE_REST[0])] + [ClientStep(THE_REST[1])])
  }

  lemma StepsOfTheCourse(env: Env)
    ensures StepsOf(TheCourse(env).between) == [] && StepsOf(TheCourse(env).after) == THE_REST
  {
    var serves := [SERVE] + [SERVE];
    assert serves[..1] == [SERVE] && [SERVE][..0] == [];
    assert StepsOf([SERVE]) == [];
    var rest := [ClientStep(THE_REST[0])] + [ClientStep(THE_REST[1])];
    var one := [ClientStep(THE_REST[0])];
    assert rest[..1] == one && one[..0] == [];
    assert StepsOf(one) == [] + [THE_REST[0]];
    assert StepsOf(rest) == StepsOf(one) + [THE_REST[1]];
  }

  lemma NobodyPastes(env: Env)
    ensures StalePastes(START, TheCourse(env).ToTheAnswer(), SETTINGS) == {}
  {
    var ms := TheCourse(env).ToTheAnswer();
    assert forall i :: 0 <= i < |ms| ==> !ms[i].Paste?;
    NoStalePastes(START, ms, SETTINGS);
  }

  lemma CourseInParts(env: Env)
    ensures var run := TheCourse(env);
            && run.ToTheAnswer() == Before(env) + [ClientStep(run.copied)] + [SERVE] + [SERVE]
            && run.Whole() == run.ToTheAnswer() + [ClientStep(run.answered)] + [ClientStep(THE_REST[0])]
                              + [ClientStep(THE_REST[1])]
  {
  }

  lemma ReachedInParts(ms: seq<Move>, s: System, m: Move, rest: seq<Move>)
    requires RunsTo(ms, s)
    ensures After(START, ms + ([m] + rest), SETTINGS) == After(Do(s, m, SETTINGS), rest, SETTINGS)
  {
    AfterParts(START, ms, [m] + rest, SETTINGS);
    AfterParts(s, [m], rest, SETTINGS);
    OneMove(s, m, SETTINGS, Written);
  }

  lemma CourseRuns(env: Env, c1: Client, c2: Client, c3: Client)
    requires EnvOk(env) && env.open == Open && c1 == Apply(Client(WITH_SEAT, Idle), Events(ANNOUNCED, env), SETTINGS)
    requires c2 == Apply(c1, RoundtripDone([Done], env), SETTINGS) && c2.phase.Idle? && ClientOk(c2, SETTINGS, Written)
    requires c3 == Follow(c2, THE_REST, SETTINGS) && LegalFrom(c2, THE_REST, SETTINGS, Written)
    requires Apply(c2, THE_REST[0], SETTINGS).phase.Idle?
    ensures RunsTo(Before(env), System(Client(WITH_SEAT, Idle), SERVER, ANNOUNCED))
    ensures RunsTo(TheCourse(env).ToTheAnswer(), System(c1, SERVER.(cursor := 2), [Done]))
    ensures RunsTo(TheCourse(env).Whole(), System(c3, SERVER.(cursor := 2), []))
  {
    CourseInParts(env);
    CopyArrives(env);
    CopyIsServed(Before(env), env, c1);
    CopyIsReadByUs(TheCourse(env).ToTheAnswer(), System(c1, SERVER.(cursor := 2), [Done]), env, c2, c3);
  }

  function TheStages(c1: Client, c2: Client, c3: Client): Stages {
    var sv := SERVER.(cursor := 2);
    Stages(System(Client(WITH_SEAT, Idle), SERVER, ANNOUNCED),
           System(c1, sv, [Done]), System(c2, sv, []), System(c3, sv, []))
  }

  lemma CourseGoes(env: Env, c1: Client, c2: Client, c3: Client)
    requires c2 == Apply(c1, RoundtripDone([Done], env), SETTINGS)
    requires RunsTo(Before(env), System(Client(WITH_SEAT, Idle), SERVER, ANNOUNCED))
    requires RunsTo(TheCourse(env).ToTheAnswer(), System(c1, SERVER.(cursor := 2), [Done]))
    requires RunsTo(TheCourse(env).Whole(), System(c3, SERVER.(cursor := 2), []))
    ensures Goes(TheCourse(env), TheStages(c1, c2, c3), SETTINGS, Written)
  {
    var run, g := TheCourse(env), TheStages(c1, c2, c3);
    assert [Done][1..] == [];
    assert g.s2 == Do(g.s1, ClientStep(run.answered), SETTINGS);
    ReachedInParts(run.ToTheAnswer(), g.s1, ClientStep(run.answered), run.after);
  }

  lemma CourseIsLeftToUs(env: Env, c1: Client, c2: Client, c3: Client)
    requires !c2.phase.Stopped? && !c2.phase.Crashed?
    ensures LeftToUs(TheCourse(env), TheStages(c1, c2, c3), 0, Regular, 5, SETTINGS)
  {
    StepsOfTheCourse(env);
    NobodyPastes(env);
  }

  /** What `Example` says of the client's part. */
  lemma ClientsPart(env: Env, c1: Client, c2: Client, c3: Client)
    requires EnvOk(env) && env.open == Open && c1 == Apply(Client(WITH_SEAT, Idle), Events(ANNOUNCED, env), SETTINGS)
    requires c2 == Apply(c1, RoundtripDone([Done], env), SETTINGS) && c3 == Follow(c2, THE_REST, SETTINGS)
    ensures c2.phase.Idle? && ClientOk(c2, SETTINGS, Written) && LegalFrom(c2, THE_REST, SETTINGS, Written)
    ensures Apply(c2, THE_REST[0], SETTINGS).phase.Idle?
    ensures ReadToTheEnd(c2, THE_REST, c3, 0, Regular, NewReader([THE_PIPE], ["a"]), SETTINGS, Written)
    ensures !TooMuch([THE_PIPE], ["a"], 5, SETTINGS, Written)
  {
    var c0 := Client(WITH_SEAT, Idle);
    CopyGetsRead(env, Events(ANNOUNCED, env), RoundtripDone([Done], env), c0, c1, c2);
    FirstChunk(c2);
    RestIsRead(c2, c3);
    OneName();
    NoLimit(NameBytes(Elements(["a"])) + TotalLength(Contents([THE_PIPE], 5, Written)));
  }

  /** All assumptions of `ACopySurvivesAmongOthers` can be met together, in a run from the start. */
  lemma Story() returns (st: Settings, written: Content, run: Course, g: Stages, ms: seq<Mime>, pipes: seq<PipeRecord>)
    ensures Goes(run, g, st, written) && LeftToUs(run, g, 0, Regular, 5, st)
    ensures Copied(g.s0.client, run.copied, 2, 0, Regular, 5, st)
    ensures ms == AdvertisedBy(g.s0.client.world.history, run.copied.batch, 2, 5)
    ensures CanBeMade(ms, 0, Regular, st, run.copied.env) && pipes == Made(0, Regular, ms, st, run.copied.env).pipes
    ensures ReadToTheEnd(g.s2.client, StepsOf(run.after), g.s3.client, 0, Regular, NewReader(pipes, ms), st, written)
    ensures !TooMuch(pipes, ms, 5, st, written)
  {
    EnvironmentsExist(Open);
    var env :| EnvOk(env) && env.open == Open;
    var c1 := Apply(Client(WITH_SEAT, Idle), Events(ANNOUNCED, env), SETTINGS);
    var c2 := Apply(c1, RoundtripDone([Done], env), SETTINGS);
    var c3 := Follow(c2, THE_REST, SETTINGS);
    ClientsPart(env, c1, c2, c3);
    CourseRuns(env, c1, c2, c3);
    CourseGoes(env, c1, c2, c3);
    CourseIsLeftToUs(env, c1, c2, c3);
    CopyHappens(env);
    MadeForTheCopy(env);
    StepsOfTheCourse(env);
    st, written, run, g := SETTINGS, Written, TheCourse(env), TheStages(c1, c2, c3);
    ms, pipes := ["a"], [THE_PIPE];
  }
}
