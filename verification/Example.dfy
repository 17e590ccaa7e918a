/** One story from the start of a run: a seat appears, another client copies, the roundtrip is answered,
    and the one pipe is read to its end. It shows that the assumptions of the theorems about runs can
    be met together. */
module Example {
  import opened Protocol
  import opened MimeAccounting
  import opened PipeReader
  import opened History
  import opened ClientSpec
  import opened ClientInvariant
  import opened Resolution
  import opened ClientRuns
  import opened ClientTheorems
  import opened Progress
  import opened Persistence
  import opened Endings

  const SETTINGS := Settings(OnlyRegular, None, false, None, false)

  function Written(o: OfferId, m: Mime): Bytes {
    [7]
  }

  function Open(n: SeatName, ty: SelectionType, m: Mime): PipeOutcome {
    Opened(9)
  }

  const SEEN := [SeatAdded(0, true)]
  const ANNOUNCED := [DataOffer(0, 5), OfferedType(0, 5, "a"), Selected(0, Regular, Some(5))]

  // ----- quiet turns -----

  lemma {:induction false} NothingToPrepare(w: World, slots: seq<Slot>, st: Settings, env: Env)
    requires forall n, ty :: Settled(w, n, ty)
    ensures PrepareAll(w, slots, st, env) == (w, [])
  {
    if slots != [] {
      NothingToPrepare(w, slots[..|slots| - 1], st, env);
      var last := slots[|slots| - 1];
      assert Settled(w, last.seat, last.ty);
      var a, b := PrepareAll(w, slots[..|slots| - 1], st, env).1, Prepare(w, last.seat, last.ty, st, env).1;
      assert a + b == [];
    }
  }

  lemma {:induction false} NothingToPublish(w: World, slots: seq<Slot>)
    requires forall n, ty :: Posted(w, n, ty)
    ensures PublishAll(w, slots) == w
  {
    if slots != [] {
      NothingToPublish(w, slots[..|slots| - 1]);
      assert Posted(w, slots[|slots| - 1].seat, slots[|slots| - 1].ty);
    }
  }

  lemma FollowOne(c: Client, a: Action, st: Settings, written: Content)
    requires Legal(c, a, written)
    ensures Follow(c, [a], st) == Apply(c, a, st) && LegalFrom(c, [a], st, written)
  {
    assert [a][..0] == [];
  }

  // ----- the steps -----

  const WITH_SEAT := World(map[0 := NewSeat(SETTINGS)], false, 0, map[], [], [], Then(Start, SeatAdded(0, true)), [],
                           {})

  lemma SeatIsAdded(env: Env)
    ensures DispatchAll(INITIAL.world, SEEN, SETTINGS, env) == WITH_SEAT
  {
    assert SEEN[..0] == [];
    assert OnSeatAdded(INITIAL.world, 0, true, SETTINGS, env).seats == map[0 := NewSeat(SETTINGS)];
  }

  lemma SeatTurn(env: Env)
    requires EnvOk(env)
    ensures TakeTurn(WITH_SEAT, SETTINGS, env) == Client(WITH_SEAT, Idle)
  {
    NothingToPrepare(WITH_SEAT, Slots(env.order(WITH_SEAT.seats.Keys)), SETTINGS, env);
    NothingToPublish(WITH_SEAT, Slots(env.order(WITH_SEAT.seats.Keys)));
  }

  lemma SeatAppears(env: Env)
    requires EnvOk(env)
    ensures LegalRun([Events(SEEN, env)], SETTINGS, Written) && ClientOk(Client(WITH_SEAT, Idle), SETTINGS, Written)
    ensures Run([Events(SEEN, env)], SETTINGS) == Client(WITH_SEAT, Idle)
  {
    var a := Events(SEEN, env);
    assert [a][..0] == [];
    SeatIsAdded(env);
    SeatTurn(env);
    assert FreshOffers(Start, SEEN[..0]) && FreshOffers(Start, SEEN);
    FollowOne(INITIAL, a, SETTINGS, Written);
    RunsAreOk([a], SETTINGS, Written);
  }

  lemma CopyIsAnnounced()
    ensures var h := WITH_SEAT.history;
            && FreshOffers(h, ANNOUNCED) && Unresolved(Extend(h, ANNOUNCED[..2]), 0) == {5}
            && Advertised(Extend(h, ANNOUNCED[..2]), 5) == ["a"]
  {
    var h := WITH_SEAT.history;
    var one, two := [DataOffer(0, 5)], [DataOffer(0, 5), OfferedType(0, 5, "a")];
    var h1 := Then(h, DataOffer(0, 5));
    var h2 := Then(h1, OfferedType(0, 5, "a"));
    assert one[..0] == [] && two[..1] == one && ANNOUNCED[..2] == two;
    assert Extend(h, one) == h1 && Extend(h, two) == h2;
    assert Unresolved(h1, 0) == {5} && Unresolved(h2, 0) == {5};
    assert Advertised(h2, 5) == [] + ["a"];
    assert FreshOffers(h, one) && FreshOffers(h, two) && FreshOffers(h, ANNOUNCED);
  }

  lemma CopyHappens(env: Env)
    requires EnvOk(env) && env.open == Open
    ensures var c, a := Client(WITH_SEAT, Idle), Events(ANNOUNCED, env);
            && Legal(c, a, Written) && Copied(c, a, 2, 0, Regular, 5, SETTINGS)
            && AdvertisedBy(c.world.history, ANNOUNCED, 2, 5) == ["a"] && CanBeMade(["a"], 0, Regular, SETTINGS, env)
  {
    CopyIsAnnounced();
    assert ANNOUNCED[3..] == [];
    assert "a" in ["a"] && !SETTINGS.Skips("a");
    ManagerStays(WITH_SEAT, ANNOUNCED, SETTINGS, env);
  }

  lemma {:induction false} ManagerStays(w: World, batch: seq<Event>, st: Settings, env: Env)
    requires !w.managerRemoved && forall e :: e in batch ==> !e.GlobalRemoved?
    ensures !DispatchAll(w, batch, st, env).managerRemoved
  {
    if batch != [] {
      var front, e := batch[..|batch| - 1], batch[|batch| - 1];
      assert e in batch && forall x :: x in front ==> x in batch;
      ManagerStays(w, front, st, env);
      ManagerKept(DispatchAll(w, front, st, env), e, st, env);
    }
  }

  lemma ManagerKept(w: World, e: Event, st: Settings, env: Env)
    requires !w.managerRemoved && !e.GlobalRemoved?
    ensures !Dispatch(w, e, st, env).managerRemoved
  {
  }

  // ----- the answer -----

  lemma {:induction false} NoFlagRaised(w: World, batch: seq<Event>, st: Settings, env: Env)
    requires !AnyFlag(w) && forall e :: e in batch ==> e == Done
    ensures !AnyFlag(DispatchAll(w, batch, st, env)) && DispatchAll(w, batch, st, env).seats == w.seats
  {
    if batch != [] {
      var front := batch[..|batch| - 1];
      assert batch[|batch| - 1] in batch && forall x :: x in front ==> x in batch;
      NoFlagRaised(w, front, st, env);
    }
  }

  /** The roundtrip is answered, and nothing else happens. */
  lemma AnswerComes(c: Client, env: Env)
    requires ClientOk(c, SETTINGS, Written) && c.phase.InRoundtrip? && EnvOk(env) && !c.world.managerRemoved
    requires IsReading(c.world, 0, Regular)
    ensures AnsweredByOthers(c, RoundtripDone([Done], env), 0, Regular, SETTINGS, Written)
    ensures var c' := Apply(c, RoundtripDone([Done], env), SETTINGS);
            c'.phase.Idle? && (0 in c.world.seats && c.world.seats[0].offers == map[] ==>
                               0 in c'.world.seats && c'.world.seats[0].offers == map[])
  {
    var a, batch := RoundtripDone([Done], env), [Done];
    assert batch[..0] == [] && FreshOffers(c.world.history, batch);
    ManagerStays(c.world, batch, SETTINGS, env);
    assert forall e :: e in batch ==> e == Done;
    assert !AnyFlag(c.world) by {
      forall n | n in c.world.seats ensures !c.world.seats[n].gotNew.regular && !c.world.seats[n].gotNew.primary {
        assert !Flag(c.world, n, Regular) && !Flag(c.world, n, Primary);
      }
    }
    NoFlagRaised(c.world, batch, SETTINGS, env);
    if Apply(c, a, SETTINGS).phase.Crashed? {
      PanicsExactly(c, batch, env, SETTINGS, Written);
      var x :| x in c.phase.awaiting && AddedAnew(batch, x.seat, x.ty);
      NothingAddedAnew(batch, x.seat, x.ty);
    }
    var w1 := DispatchAll(c.world, batch, SETTINGS, env);
    var w2 := ResolveAll(w1, c.phase.awaiting).world;
    TablesKept(w1, c.phase.awaiting, Slots(env.order(w2.seats.Keys)));
  }

  lemma {:induction false} ResolvedTables(w: World, awaiting: seq<Awaiting>)
    requires ResolveAll(w, awaiting).Continues?
    ensures var w' := ResolveAll(w, awaiting).world;
            w'.seats.Keys == w.seats.Keys && forall n :: n in w.seats ==> w'.seats[n].offers == w.seats[n].offers
  {
    if awaiting != [] {
      ResolvedTables(w, awaiting[..|awaiting| - 1]);
    }
  }

  lemma {:induction false} PublishedTables(w: World, slots: seq<Slot>)
    ensures var w' := PublishAll(w, slots);
            w'.seats.Keys == w.seats.Keys && forall n :: n in w.seats ==> w'.seats[n].offers == w.seats[n].offers
  {
    if slots != [] {
      PublishedTables(w, slots[..|slots| - 1]);
      PublishKeepsOffers(PublishAll(w, slots[..|slots| - 1]), slots[|slots| - 1].seat, slots[|slots| - 1].ty);
    }
  }

  lemma TablesKept(w: World, awaiting: seq<Awaiting>, slots: seq<Slot>)
    requires ResolveAll(w, awaiting).Continues?
    ensures var w' := PublishAll(ResolveAll(w, awaiting).world, slots);
            w'.seats.Keys == w.seats.Keys && forall n :: n in w.seats ==> w'.seats[n].offers == w.seats[n].offers
  {
    ResolvedTables(w, awaiting);
    PublishedTables(ResolveAll(w, awaiting).world, slots);
  }

  // ----- reading -----

  const THE_PIPE := PipeRecord("a", 9, Unset, false)

  lemma OnlyOne(l: seq<Mime>, m: Mime)
    requires Lists(l, {m})
    ensures l == [m]
  {
    assert |l| >= 2 ==> l[0] != l[1];
    assert m in Elements(l) && forall i :: 0 <= i < |l| ==> l[i] in Elements(l);
  }

  lemma OnePipe(env: Env)
    requires EnvOk(env) && env.open == Open
    ensures Made(0, Regular, ["a"], SETTINGS, env).pipes == [THE_PIPE]
  {
    var todo := env.typeOrder({"a"});
    assert Elements(["a"]) == {"a"};
    assert Lists(todo, {"a"});
    OnlyOne(todo, "a");
    assert todo[1..] == [];
    assert CreatePipes([], OpenFor(env, 0, Regular), SETTINGS) == Created([], false, {});
    assert |"a"| == 1 && |"SAVE_TARGETS"| == 12;
    assert env.open(0, Regular, "a") == Open(0, Regular, "a");
    assert OpenFor(env, 0, Regular)("a") == env.open(0, Regular, "a");
    assert CreatePipes(todo, OpenFor(env, 0, Regular), SETTINGS).pipes == [THE_PIPE] + [];
  }

  const HALF_READ := Reader([THE_PIPE.(buffer := Filled([7]))], 2, 0, 0)

  /** One chunk and the end of the file, and the whole content has been read. */
  lemma ReadingEnds()
    ensures Wake(Reader([THE_PIPE], 1, 0, 0), 0, Chunk([7]), SETTINGS) == Step(HALF_READ, Pending)
    ensures Wake(HALF_READ, 0, Eof, SETTINGS).verdict.Complete?
  {
    var nothing: Bytes := [];
    assert nothing + [7] == [7];
    var r := Reader([THE_PIPE], 1, 0, 0);
    assert Wake(r, 0, Chunk([7]), SETTINGS).reader.pipes == HALF_READ.pipes;
  }

  lemma FirstChunk(c: Client)
    requires ClientOk(c, SETTINGS, Written) && c.phase.Idle? && Origin(c.world.history, 0, Regular) == Some(5)
    requires At(c.world, 0, Regular) == Some(GotPipes(["a"], Reader([THE_PIPE], 1, 0, 0)))
    ensures var a, w' := PipeReady(0, Regular, 0, Chunk([7])), Put(c.world, 0, Regular, GotPipes(["a"], HALF_READ));
            && Legal(c, a, Written) && Apply(c, a, SETTINGS) == Client(w', Idle)
            && ClientOk(Client(w', Idle), SETTINGS, Written)
            && At(w', 0, Regular) == Some(GotPipes(["a"], HALF_READ)) && Origin(w'.history, 0, Regular) == Some(5)
            && w'.seats[0].offers == c.world.seats[0].offers
  {
    ReadingEnds();
    var a := PipeReady(0, Regular, 0, Chunk([7]));
    assert Legal(c, a, Written);
    ApplyOk(c, a, SETTINGS, Written);
  }

  lemma EndOfFile(c: Client)
    requires ClientOk(c, SETTINGS, Written) && c.phase.Idle? && Origin(c.world.history, 0, Regular) == Some(5)
    requires At(c.world, 0, Regular) == Some(GotPipes(["a"], HALF_READ)) && c.world.seats[0].offers == map[]
    ensures var a := PipeReady(0, Regular, 0, Eof);
            && Legal(c, a, Written) && Apply(c, a, SETTINGS).phase.Idle?
            && var w' := Apply(c, a, SETTINGS).world; 0 in w'.seats && w'.seats[0].offers == map[]
  {
    ReadingEnds();
    assert Legal(c, PipeReady(0, Regular, 0, Eof), Written);
    DeliverOk(c.world, 0, Regular, 0, Eof, SETTINGS, Written);
  }

  const THE_REST := [PipeReady(0, Regular, 0, Chunk([7])), PipeReady(0, Regular, 0, Eof)]

  lemma ReadOne(r: Reader, t: Turn, rest: seq<Turn>, st: Settings)
    requires t.Ready? && t.pipe < |r.pipes|
    ensures var s := Wake(r, t.pipe, t.delivery, st);
            Read(r, [t] + rest, st) == if s.verdict.Pending? then Read(s.reader, rest, st) else s
  {
    assert ([t] + rest)[1..] == rest;
  }

  lemma RestReads()
    ensures Read(Reader([THE_PIPE], 1, 0, 0), TurnsOf(THE_REST, 0, Regular), SETTINGS).verdict.Complete?
  {
    ReadingEnds();
    var front := THE_REST[..1];
    assert front[..0] == [] && THE_REST == front + [THE_REST[1]];
    var r, t0, t1 := Reader([THE_PIPE], 1, 0, 0), Ready(0, Chunk([7])), Ready(0, Eof);
    assert TurnsOf(front, 0, Regular) == [] + [t0] && TurnsOf(THE_REST, 0, Regular) == [t0] + [t1];
    ReadOne(r, t0, [t1], SETTINGS);
    assert [t1] == [t1] + [];
    ReadOne(HALF_READ, t1, [], SETTINGS);
  }

  lemma RestIsRead(c: Client, c': Client)
    requires ClientOk(c, SETTINGS, Written) && c.phase.Idle?
    requires At(c.world, 0, Regular) == Some(GotPipes(["a"], Reader([THE_PIPE], 1, 0, 0))) &&
             c.world.seats[0].offers == map[]
    requires Origin(c.world.history, 0, Regular) == Some(5) && c' == Follow(c, THE_REST, SETTINGS)
    ensures ReadToTheEnd(c, THE_REST, c', 0, Regular, Reader([THE_PIPE], 1, 0, 0), SETTINGS, Written)
  {
    RestReads();
    FirstChunk(c);
    var c1 := Apply(c, THE_REST[0], SETTINGS);
    EndOfFile(c1);
    var front := THE_REST[..1];
    assert front[..0] == [] && THE_REST[..1] == front;
    assert Follow(c, front, SETTINGS) == c1 && LegalFrom(c, front, SETTINGS, Written);
  }

  // ----- the whole run -----

  lemma AnnouncedIsResolved(h: History)
    requires h == WITH_SEAT.history
    ensures Unresolved(Extend(h, ANNOUNCED), 0) == {}
  {
    var two := [DataOffer(0, 5), OfferedType(0, 5, "a")];
    assert ANNOUNCED[..2] == two && two[..1] == [DataOffer(0, 5)] && two[..1][..0] == [];
    assert Extend(h, two[..1]) == Then(h, DataOffer(0, 5)) &&
           Extend(h, two) == Then(Extend(h, two[..1]), OfferedType(0, 5, "a"));
    assert Unresolved(Extend(h, two), 0) == {5};
  }

  /** The offers of the seat after the copy: all resolved. */
  lemma NothingUnresolved(c: Client, a: Action)
    requires c == Client(WITH_SEAT, Idle) && ClientOk(c, SETTINGS, Written) && a.Events? && a.batch == ANNOUNCED &&
             Legal(c, a, Written)
    requires IsReading(Apply(c, a, SETTINGS).world, 0, Regular)
    ensures Apply(c, a, SETTINGS).world.seats[0].offers == map[]
    ensures !Apply(c, a, SETTINGS).world.managerRemoved
  {
    assert Apply(c, a, SETTINGS).world.seats[0].offers.Keys == {} by {
      ApplyOk(c, a, SETTINGS, Written);
      ApplyHistory(c, a, SETTINGS);
      AnnouncedIsResolved(WITH_SEAT.history);
      assert SeatOk(Apply(c, a, SETTINGS).world, 0, SETTINGS);
    }
    ManagerStays(WITH_SEAT, ANNOUNCED, SETTINGS, a.env);
    TurnKeepsManager(DispatchAll(WITH_SEAT, ANNOUNCED, SETTINGS, a.env), SETTINGS, a.env);
  }

  /** The pipe of the copy is being read after the roundtrip. */
  lemma CopyGetsRead(env: Env, copied: Action, answered: Action, c0: Client, c1: Client, c2: Client)
    requires EnvOk(env) && env.open == Open && copied == Events(ANNOUNCED, env) &&
             answered == RoundtripDone([Done], env)
    requires c0 == Client(WITH_SEAT, Idle) && c1 == Apply(c0, copied, SETTINGS) && c2 == Apply(c1, answered, SETTINGS)
    ensures AnsweredByOthers(c1, answered, 0, Regular, SETTINGS, Written)
    ensures ClientOk(c2, SETTINGS, Written) && c2.phase.Idle? && Origin(c2.world.history, 0, Regular) == Some(5)
    ensures At(c2.world, 0, Regular) == Some(GotPipes(["a"], Reader([THE_PIPE], 1, 0, 0))) &&
            c2.world.seats[0].offers == map[]
  {
    SeatAppears(env);
    CopyHappens(env);
    OnePipe(env);
    AllPipesMade(["a"], 0, Regular, SETTINGS, env);
    NewSelectionIsAskedFor(c0, copied, 2, 0, Regular, 5, SETTINGS, Written);
    ApplyOk(c0, copied, SETTINGS, Written);
    NothingUnresolved(c0, copied);
    AnswerComes(c1, env);
    CopyIsRead(c0, copied, 2, answered, 0, Regular, 5, ["a"], SETTINGS, Written);
    OneName();
  }

  /** All assumptions of `ACopySurvives` can be met together, in a run from the start. */
  lemma Story() returns (st: Settings, written: Content, env: Env, seen: Action, copied: Action, answered: Action,
                         rest: seq<Action>, ms: seq<Mime>, pipes: seq<PipeRecord>,
                         c0: Client, c1: Client, c2: Client, c3: Client)
    ensures LegalRun([seen], st, written) && c0 == Run([seen], st) && ClientOk(c0, st, written) &&
            Posts(c0.world, 0, Regular) == []
    ensures Legal(c0, copied, written) && Copied(c0, copied, 2, 0, Regular, 5, st)
    ensures ms == AdvertisedBy(c0.world.history, copied.batch, 2, 5) && CanBeMade(ms, 0, Regular, st, copied.env)
    ensures c1 == Apply(c0, copied, st) && AnsweredByOthers(c1, answered, 0, Regular, st, written)
    ensures pipes == Made(0, Regular, ms, st, copied.env).pipes && c2 == Apply(c1, answered, st)
    ensures c3 == Follow(c2, rest, st) && ReadToTheEnd(c2, rest, c3, 0, Regular, NewReader(pipes, ms), st, written)
    ensures !TooMuch(pipes, ms, 5, st, written)
  {
    st, written := SETTINGS, Written;
    EnvironmentsExist(Open);
    env :| EnvOk(env) && env.open == Open;
    seen, copied, answered, rest := Events(SEEN, env), Events(ANNOUNCED, env), RoundtripDone([Done], env), THE_REST;
    ms, pipes := ["a"], [THE_PIPE];
    SeatAppears(env);
    c0 := Client(WITH_SEAT, Idle);
    c1 := Apply(c0, copied, SETTINGS);
    c2 := Apply(c1, answered, SETTINGS);
    c3 := Follow(c2, rest, SETTINGS);
    CopyHappens(env);
    OnePipe(env);
    OneName();
    CopyGetsRead(env, copied, answered, c0, c1, c2);
    RestIsRead(c2, c3);
    NoLimit(NameBytes(Elements(ms)) + TotalLength(Contents(pipes, 5, Written)));
  }

  lemma NoLimit(bytes: nat)
    ensures !SETTINGS.Exceeds(bytes)
  {
  }

  lemma OneName()
    ensures NameBytes(Elements(["a"])) == 1
  {
    assert Elements(["a"]) == {"a"};
    NameBytesSplit({"a"}, "a");
    assert {"a"} - {"a"} == {};
  }
}
