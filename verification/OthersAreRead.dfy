/** The other side of never copying itself: the client does not mistake another client's offer for its own.
    A pipe of such an offer comes back through one of our sources only if another client passes it back and
    the compositor lets it paste from a source that is not the selection any more. Pipes that are still on
    their way have identities of their own. */
module OthersAreRead {
  import opened Protocol
  import opened PipeReader
  import opened ClientSpec
  import opened ClientInvariant
  import opened Resolution
  import opened ClientRuns
  import opened ClientTheorems
  import opened Asked
  import opened Wire
  import opened Sources
  import opened Persistence
  import opened Compositor
  import opened NoSelfCopy
  import opened NeverAgain

  // ----- the assumption -----

  /** No send request on its way to us, and no other receive request on its way to the compositor, carries
      the write end of the pipe of request `i`. */
  ghost predicate AloneOnItsWay(s: System, i: nat)
    requires i < |s.client.world.out| && s.client.world.out[i].Receive?
  {
    var out := s.client.world.out;
    && (forall e :: e in s.queue && e.Send? ==> e.fd != out[i].fd)
    && (forall j :: s.server.cursor <= j < |out| && j != i && out[j].Receive? ==> out[j].fd != out[i].fd)
  }

  /** A step makes pipes with identities that no pipe has that is open at that time. */
  ghost predicate PipesAreNew(s: System, a: Action, st: Settings) {
    var s' := Do(s, ClientStep(a), st);
    forall i :: |s.client.world.out| <= i < |s'.client.world.out| && s'.client.world.out[i].Receive? ==>
                 AloneOnItsWay(s', i)
  }

  ghost predicate AllPipesNew(s: System, ms: seq<Move>, st: Settings) {
    ms != [] ==>
      && AllPipesNew(s, ms[..|ms| - 1], st)
      && (ms[|ms| - 1].ClientStep? ==> PipesAreNew(After(s, ms[..|ms| - 1], st), ms[|ms| - 1].action, st))
  }

  // ----- the invariant -----

  predicate IsForeign(sv: Server, o: OfferId) {
    o in sv.provenance && sv.provenance[o].Foreign?
  }

  /** The source is the selection that other clients see at this time. */
  predicate BehindCurrent(sv: Server, src: SourceId) {
    exists o :: o in sv.provenance && IsOwnCurrent(sv, o) && sv.provenance[o].source == src
  }

  /** The send requests that a move causes by letting another client paste from a source of ours that is
      not the selection any more. */
  function StalePaste(s: System, m: Move): set<Event> {
    if m.Paste? && !BehindCurrent(s.server, m.source) then {Send(m.source, m.mime, m.fd, m.fault)} else {}
  }

  function StalePastes(s: System, ms: seq<Move>, st: Settings): set<Event> {
    if ms == [] then {}
    else
      var front := ms[..|ms| - 1];
      StalePastes(s, front, st) + StalePaste(After(s, front, st), ms[|ms| - 1])
  }

  /** The pipe is not marked, and is on its way for this offer only. If it comes back to a source of the
      same selection, then by a stale paste, or not before the selection is replaced. */
  ghost predicate Clean(s: System, stale: set<Event>, n: SeatName, ty: SelectionType, fd: Fd)
    requires IsReading(s.client.world, n, ty) && fd in At(s.client.world, n, ty).value.fds
  {
    var w, r := s.client.world, At(s.client.world, n, ty).value;
    && !r.fds[fd]
    && (forall k :: 0 <= k < |s.queue| && IsEcho(w, s.queue[k], n, ty, fd) ==>
          s.queue[k] in stale || TouchedIn(s.queue[..k], n, ty))
    && (forall j :: s.server.cursor <= j < |w.out| && w.out[j].Receive? && w.out[j].fd == fd ==>
          w.out[j].offer == r.offer)
  }

  ghost predicate SlotClean(s: System, stale: set<Event>, n: SeatName, ty: SelectionType) {
    IsReading(s.client.world, n, ty) && IsForeign(s.server, At(s.client.world, n, ty).value.offer) ==>
      forall fd :: fd in At(s.client.world, n, ty).value.fds ==> Clean(s, stale, n, ty, fd)
  }

  ghost predicate Unechoed(s: System, stale: set<Event>) {
    s.client.phase.InRoundtrip? ==> forall n, ty :: SlotClean(s, stale, n, ty)
  }

  // ----- the moves of the compositor -----

  /** A move sends at most one request through a pipe to us: for an own offer that we asked for, or for
      another client that pastes. */
  lemma MoveSends(s: System, m: Move, st: Settings, written: Content, e: Event)
    requires !m.ClientStep? && CanMove(s, m, written) && s.queue <= Do(s, m, st).queue
    requires e in Do(s, m, st).queue[|s.queue|..] && e.Send?
    ensures Do(s, m, st).queue == s.queue + [e]
    ensures m.Paste? ==> e == Send(m.source, m.mime, m.fd, m.fault)
    ensures !m.Paste? ==>
              && m.Serve? && s.server.cursor < |s.client.world.out|
              && var r := s.client.world.out[s.server.cursor];
                 r.Receive? && r.fd == e.fd && r.offer in s.server.provenance && s.server.provenance[r.offer].Own?
  {
  }

  lemma ReadingIsKnown(s: System, n: SeatName, ty: SelectionType, st: Settings, written: Content)
    requires SystemOk(s, st, written) && IsReading(s.client.world, n, ty)
    ensures At(s.client.world, n, ty).value.offer in s.server.provenance
    ensures Origin(s.client.world.history, n, ty) == Some(At(s.client.world, n, ty).value.offer)
  {
    var w := s.client.world;
    assert SelectionOk(w.history, w.out, w.faults, n, ty, At(w, n, ty).value, st, written);
    HomeParts(w.history, s.queue, s.server.home);
    LastIsHome(w.history, s.server.home, n, ty);
  }

  lemma OwnOfferIsAtHome(w: World, sv: Server, o: OfferId, src: SourceId)
    requires OwnOffersOk(w, sv) && SourcesProper(w) && src in w.callbacks
    requires o in sv.provenance && sv.provenance[o] == Own(src)
    ensures o in sv.home && sv.home[o] == Slot(w.callbacks[src].seat, w.callbacks[src].ty)
  {
    assert SourceOk(w, src);
  }

  /** While another client's offer is being read, a source of the same selection is not current, unless the
      selection is about to be replaced. */
  lemma CurrentMeansReplaced(s: System, n: SeatName, ty: SelectionType, src: SourceId, st: Settings, written: Content)
    requires SystemOk(s, st, written) && IsReading(s.client.world, n, ty)
    requires IsForeign(s.server, At(s.client.world, n, ty).value.offer) && BehindCurrent(s.server, src)
    requires var cb := s.client.world.callbacks; src in cb && cb[src].seat == n && cb[src].ty == ty
    ensures TouchedIn(s.queue, n, ty)
  {
    var o :| o in s.server.provenance && IsOwnCurrent(s.server, o) && s.server.provenance[o].source == src;
    OwnOfferIsAtHome(s.client.world, s.server, o, src);
    ReadingIsKnown(s, n, ty, st, written);
    assert Shown(s.server, n, ty) == Some(Some(o));
    if !TouchedIn(s.queue, n, ty) {
      UntouchedHistory(s.client.world.history, s.queue, n, ty);
    }
  }

  lemma NewSendIsClean(s: System, m: Move, st: Settings, written: Content, stale: set<Event>, n: SeatName,
                       ty: SelectionType, fd: Fd, e: Event)
    requires SystemOk(s, st, written) && !m.ClientStep? && CanMove(s, m, written) && s.queue <= Do(s, m, st).queue
    requires IsReading(s.client.world, n, ty) && IsForeign(s.server, At(s.client.world, n, ty).value.offer)
    requires fd in At(s.client.world, n, ty).value.fds && Clean(s, stale, n, ty, fd)
    requires e in Do(s, m, st).queue[|s.queue|..] && IsEcho(s.client.world, e, n, ty, fd)
    ensures Do(s, m, st).queue == s.queue + [e]
    ensures e in StalePaste(s, m) || TouchedIn(s.queue, n, ty)
  {
    MoveSends(s, m, st, written, e);
    if m.Paste? && BehindCurrent(s.server, m.source) {
      CurrentMeansReplaced(s, n, ty, m.source, st, written);
    }
  }

  lemma MoveKeepsPipeClean(s: System, m: Move, st: Settings, written: Content, stale: set<Event>, n: SeatName,
                           ty: SelectionType, fd: Fd)
    requires SystemOk(s, st, written) && !m.ClientStep? && CanMove(s, m, written)
    requires IsReading(s.client.world, n, ty) && IsForeign(s.server, At(s.client.world, n, ty).value.offer)
    requires fd in At(s.client.world, n, ty).value.fds && Clean(s, stale, n, ty, fd)
    requires Do(s, m, st).client == s.client
    ensures Clean(Do(s, m, st), stale + StalePaste(s, m), n, ty, fd)
  {
    var s', w := Do(s, m, st), s.client.world;
    MoveAdds(s, m, st, written);
    forall k | 0 <= k < |s'.queue| && IsEcho(w, s'.queue[k], n, ty, fd)
      ensures s'.queue[k] in stale + StalePaste(s, m) || TouchedIn(s'.queue[..k], n, ty)
    {
      var e := s'.queue[k];
      if k < |s.queue| {
        assert s'.queue[..k] == s.queue[..k] && e == s.queue[k];
      } else {
        assert e == s'.queue[|s.queue|..][k - |s.queue|];
        NewSendIsClean(s, m, st, written, stale, n, ty, fd, e);
        assert s'.queue[..k] == s.queue;
      }
    }
  }

  lemma MoveKeepsClean(s: System, m: Move, st: Settings, written: Content, stale: set<Event>, n: SeatName,
                       ty: SelectionType)
    requires SystemOk(s, st, written) && !m.ClientStep? && CanMove(s, m, written)
    requires SlotClean(s, stale, n, ty)
    ensures SlotClean(Do(s, m, st), stale + StalePaste(s, m), n, ty)
  {
    var s' := Do(s, m, st);
    assert s'.client == s.client by { MoveAdds(s, m, st, written); }
    if IsReading(s.client.world, n, ty) && IsForeign(s'.server, At(s.client.world, n, ty).value.offer) {
      ReadingIsKnown(s, n, ty, st, written);
      MoveKeepsForwarded(s, m, st, written);
      forall fd | fd in At(s.client.world, n, ty).value.fds ensures Clean(s', stale + StalePaste(s, m), n, ty, fd) {
        MoveKeepsPipeClean(s, m, st, written, stale, n, ty, fd);
      }
    }
  }

  // ----- the steps of the client -----

  /** The pipe was asked for on behalf of the offer, by one of the last requests. */
  predicate AskedSince(w: World, k: nat, o: OfferId, fd: Fd) {
    exists i :: k <= i < |w.out| && w.out[i].Receive? && w.out[i].offer == o && w.out[i].fd == fd
  }

  /** All pipes of a selection are new and unmarked. */
  predicate JustAsked(w: World, k: nat, n: SeatName, ty: SelectionType) {
    IsReading(w, n, ty) ==>
      var r := At(w, n, ty).value;
      forall fd :: fd in r.fds ==> !r.fds[fd] && AskedSince(w, k, r.offer, fd)
  }

  lemma {:induction false} UnmarkedAre(pipes: seq<PipeRecord>, fd: Fd)
    requires fd in Unmarked(pipes)
    ensures !Unmarked(pipes)[fd] && exists i :: 0 <= i < |pipes| && pipes[i].fd == fd
  {
    var last := |pipes| - 1;
    if pipes[last].fd != fd {
      UnmarkedAre(pipes[..last], fd);
      var i :| 0 <= i < last && pipes[..last][i].fd == fd;
      assert pipes[i].fd == fd;
    }
  }

  predicate Unopened(w: World, n: SeatName, ty: SelectionType) {
    IsReading(w, n, ty) ==> At(w, n, ty).value.fds == map[]
  }

  lemma PreparedIsNew(w: World, k: nat, n: SeatName, ty: SelectionType, st: Settings, env: Env)
    requires Unopened(w, n, ty) && k <= |w.out|
    ensures JustAsked(Prepare(w, n, ty, st, env).0, k, n, ty)
  {
    var w' := Prepare(w, n, ty, st, env).0;
    if IsReading(w, n, ty) && IsReading(w', n, ty) {
      var r := At(w, n, ty).value;
      var c := CreatePipes(env.typeOrder(r.unique), OpenFor(env, n, ty), st);
      PrepareReadingOut(w, n, ty, st, env, c);
      PrepareReadingFds(w, n, ty, st, env, c);
      assert r.fds + Unmarked(c.pipes) == Unmarked(c.pipes);
      forall fd | fd in Unmarked(c.pipes) ensures AskedSince(w', k, r.offer, fd) && !Unmarked(c.pipes)[fd] {
        UnmarkedAre(c.pipes, fd);
        var i :| 0 <= i < |c.pipes| && c.pipes[i].fd == fd;
        assert w'.out[|w.out| + i] == Receives(r.offer, c.pipes)[i];
      }
    }
  }

  lemma AskedSinceGrows(w: World, w': World, k: nat, n: SeatName, ty: SelectionType)
    requires JustAsked(w, k, n, ty) && w.out <= w'.out && At(w', n, ty) == At(w, n, ty)
    ensures JustAsked(w', k, n, ty)
  {
    if IsReading(w, n, ty) {
      var r := At(w, n, ty).value;
      forall fd | fd in r.fds ensures AskedSince(w', k, r.offer, fd) {
        assert AskedSince(w, k, r.offer, fd);
        var i :| k <= i < |w.out| && w.out[i].Receive? && w.out[i].offer == r.offer && w.out[i].fd == fd;
        assert w'.out[i] == w.out[i];
      }
    }
  }

  lemma {:induction false} AllPreparedAreNew(w: World, slots: seq<Slot>, n: SeatName, ty: SelectionType, st: Settings,
                                             env: Env)
    requires NoDuplicates(slots) && Unopened(w, n, ty)
    ensures var w' := PrepareAll(w, slots, st, env).0;
            && w.out <= w'.out
            && (Slot(n, ty) in slots ==> JustAsked(w', |w.out|, n, ty))
            && (Slot(n, ty) !in slots ==> At(w', n, ty) == At(w, n, ty))
  {
    if slots != [] {
      var front, last := slots[..|slots| - 1], slots[|slots| - 1];
      assert slots == front + [last];
      AllPreparedAreNew(w, front, n, ty, st, env);
      var w1 := PrepareAll(w, front, st, env).0;
      var w2 := Prepare(w1, last.seat, last.ty, st, env).0;
      PrepareSteady(w1, last.seat, last.ty, st, env);
      if last == Slot(n, ty) {
        assert forall i :: 0 <= i < |front| ==> front[i] == slots[i];
        PreparedIsNew(w1, |w.out|, n, ty, st, env);
      } else {
        PrepareFrame(w1, last.seat, last.ty, st, env, n, ty);
        if Slot(n, ty) in front {
          AskedSinceGrows(w1, w2, |w.out|, n, ty);
        }
      }
    }
  }

  lemma TurnMakesNew(w: World, n: SeatName, ty: SelectionType, st: Settings, env: Env)
    requires EnvOk(env) && Unopened(w, n, ty) && TakeTurn(w, st, env).phase.InRoundtrip?
    ensures JustAsked(TakeTurn(w, st, env).world, |w.out|, n, ty)
  {
    var ns := env.order(w.seats.Keys);
    assert Lists(ns, w.seats.Keys);
    SlotsList(ns);
    AllPreparedAreNew(w, Slots(ns), n, ty, st, env);
    var w1 := PrepareAll(w, Slots(ns), st, env).0;
    var w' := TakeTurn(w, st, env).world;
    assert At(w', n, ty) == At(w1, n, ty);
    if IsReading(w', n, ty) {
      PreparedWasRead(w, Slots(ns), n, ty, st, env);
      assert n in Elements(ns);
      AskedSinceGrows(w1, w', |w.out|, n, ty);
    }
  }

  /** The world from which the loop takes the turn that ends in the next roundtrip. */
  lemma TurnBegins(c: Client, a: Action, st: Settings, written: Content) returns (w: World)
    requires ClientSideOk(c, st, written) && Legal(c, a, written) && Apply(c, a, st).phase.InRoundtrip?
    ensures !a.PipeReady? && Apply(c, a, st) == TakeTurn(w, st, a.env) && c.world.out <= w.out
    ensures forall n, ty :: Ripe(w, n, ty)
  {
    match a
    case PipeReady(_, _, _, _) =>
    case Events(batch, env) =>
      w := DispatchAll(c.world, batch, st, env);
      assert RoundOk(c.world, [], st, written);
      DispatchAllOk(c.world, batch, [], st, env, written);
      DispatchAllGrows(c.world, batch, st, env);
      forall n, ty ensures Ripe(w, n, ty) {
        assert RoundSlotOk(w, [], n, ty);
      }
    case RoundtripDone(batch, env) =>
      var w1 := DispatchAll(c.world, batch, st, env);
      DispatchAllOk(c.world, batch, c.phase.awaiting, st, env, written);
      DispatchAllAsked(c.world, batch, c.phase.awaiting, st, env, written);
      DispatchAllGrows(c.world, batch, st, env);
      ResolvedIsRipe(w1, c.phase.awaiting, st, written);
      w := ResolveAll(w1, c.phase.awaiting).world;
  }

  lemma StepMakesClean(s: System, a: Action, st: Settings, written: Content, stale: set<Event>, n: SeatName,
                       ty: SelectionType)
    requires SystemOk(s, st, written) && CanMove(s, ClientStep(a), written) && PipesAreNew(s, a, st)
    requires Apply(s.client, a, st).phase.InRoundtrip?
    ensures SlotClean(Do(s, ClientStep(a), st), stale, n, ty)
  {
    var s' := Do(s, ClientStep(a), st);
    StepIsLegal(s, a, st, written);
    var w := TurnBegins(s.client, a, st, written);
    assert Ripe(w, n, ty);
    TurnMakesNew(w, n, ty, st, a.env);
    var w' := s'.client.world;
    if IsReading(w', n, ty) {
      var r := At(w', n, ty).value;
      forall fd | fd in r.fds ensures Clean(s', stale, n, ty, fd) {
        assert AskedSince(w', |w.out|, r.offer, fd);
        var i :| |w.out| <= i < |w'.out| && w'.out[i].Receive? && w'.out[i].offer == r.offer && w'.out[i].fd == fd;
        AloneIsClean(s', stale, n, ty, fd, i);
      }
    }
  }

  lemma AloneIsClean(s: System, stale: set<Event>, n: SeatName, ty: SelectionType, fd: Fd, i: nat)
    requires IsReading(s.client.world, n, ty) && fd in At(s.client.world, n, ty).value.fds
    requires var r := At(s.client.world, n, ty).value;
             && !r.fds[fd] && i < |s.client.world.out|
             && var q := s.client.world.out[i]; q.Receive? && q.offer == r.offer && q.fd == fd && AloneOnItsWay(s, i)
    ensures Clean(s, stale, n, ty, fd)
  {
    assert forall k :: 0 <= k < |s.queue| ==> s.queue[k] in s.queue;
  }

  // ----- the results -----

  lemma MoveStaysUnechoed(s: System, m: Move, st: Settings, written: Content, stale: set<Event>)
    requires SystemOk(s, st, written) && Unechoed(s, stale) && CanMove(s, m, written)
    requires m.ClientStep? ==> PipesAreNew(s, m.action, st)
    ensures Unechoed(Do(s, m, st), stale + StalePaste(s, m))
  {
    var s' := Do(s, m, st);
    if s'.client.phase.InRoundtrip? {
      forall n, ty ensures SlotClean(s', stale + StalePaste(s, m), n, ty) {
        if m.ClientStep? {
          StepMakesClean(s, m.action, st, written, stale + StalePaste(s, m), n, ty);
        } else {
          assert s'.client == s.client by { MoveAdds(s, m, st, written); }
          MoveKeepsClean(s, m, st, written, stale, n, ty);
        }
      }
    }
  }

  lemma {:induction false} RunStaysUnechoed(s: System, ms: seq<Move>, st: Settings, written: Content)
    requires SystemOk(s, st, written) && Unechoed(s, {}) && CanRun(s, ms, st, written) && AllPipesNew(s, ms, st)
    ensures SystemOk(After(s, ms, st), st, written) && Unechoed(After(s, ms, st), StalePastes(s, ms, st))
  {
    if ms != [] {
      var front, m := ms[..|ms| - 1], ms[|ms| - 1];
      RunStaysUnechoed(s, front, st, written);
      RunOk(s, ms, st, written, 0, Regular);
      MoveStaysUnechoed(After(s, front, st), m, st, written, StalePastes(s, front, st));
    }
  }

  /** One of the stale pastes in the batch comes through a pipe of the selection, to a source of the same
      selection. */
  predicate PassedBack(w: World, batch: seq<Event>, stale: set<Event>, n: SeatName, ty: SelectionType)
    requires IsReading(w, n, ty)
  {
    exists e :: e in batch && e in stale && e.Send? && e.fd in At(w, n, ty).value.fds && IsEcho(w, e, n, ty, e.fd)
  }

  lemma OnlyStaleEchoes(s: System, stale: set<Event>, batch: seq<Event>, n: SeatName, ty: SelectionType)
    requires s.client.phase.InRoundtrip? && Unechoed(s, stale) && IsReading(s.client.world, n, ty)
    requires batch <= s.queue && !TouchedIn(batch, n, ty)
    requires IsForeign(s.server, At(s.client.world, n, ty).value.offer)
    ensures NoEcho(s.client.world, batch, n, ty) <==> !PassedBack(s.client.world, batch, stale, n, ty)
    ensures var r := At(s.client.world, n, ty).value; forall fd :: fd in r.fds ==> !r.fds[fd]
  {
    var w := s.client.world;
    var r := At(w, n, ty).value;
    assert SlotClean(s, stale, n, ty);
    forall fd, e | fd in r.fds && e in batch && IsEcho(w, e, n, ty, fd) ensures e in stale {
      assert Clean(s, stale, n, ty, fd);
      var k :| 0 <= k < |batch| && batch[k] == e;
      assert s.queue[k] == e;
      if TouchedIn(s.queue[..k], n, ty) {
        TouchedInGrows(s.queue[..k], batch, n, ty);
      }
    }
    forall fd | fd in r.fds ensures !r.fds[fd] {
      assert Clean(s, stale, n, ty, fd);
    }
    if !NoEcho(w, batch, n, ty) {
      var fd :| fd in r.fds && EchoedIn(w, batch, n, ty, fd);
      var e :| e in batch && IsEcho(w, e, n, ty, fd);
      assert e in stale && e.fd == fd;
    }
    if PassedBack(w, batch, stale, n, ty) {
      var e :| e in batch && e in stale && e.Send? && e.fd in r.fds && IsEcho(w, e, n, ty, e.fd);
      assert EchoedIn(w, batch, n, ty, e.fd);
    }
  }

  /** Another client's offer is not mistaken for our own. In every run with a compositor, when a roundtrip
      is answered, a selection that stands for an offer of another client and was left alone is read
      through the pipes that were made for it; it is dropped if and only if one of them was passed back to
      a source of ours that was the same selection before, by a paste after it had been replaced. */
  lemma OthersAreRead(ms: seq<Move>, s: System, a: Action, n: SeatName, ty: SelectionType, pipes: seq<PipeRecord>,
                      st: Settings, written: Content)
    requires CanRun(START, ms, st, written) && AllPipesNew(START, ms, st)
    requires s == After(START, ms, st) && CanMove(s, ClientStep(a), written) && a.RoundtripDone?
    requires Awaiting(n, ty, pipes) in s.client.phase.awaiting && IsReading(s.client.world, n, ty)
    requires IsForeign(s.server, At(s.client.world, n, ty).value.offer) && !TouchedIn(a.batch, n, ty)
    requires var c' := Apply(s.client, a, st); !c'.phase.Stopped? && !c'.phase.Crashed?
    ensures var r := At(s.client.world, n, ty).value;
            At(Apply(s.client, a, st).world, n, ty) ==
            Some(if PassedBack(s.client.world, a.batch, StalePastes(START, ms, st), n, ty) then Waiting
                 else GotPipes(r.ordered, Reader(pipes, r.bytesRead, 0, 0)))
    ensures AnsweredByOthers(s.client, a, n, ty, st, written) <==>
            !PassedBack(s.client.world, a.batch, StalePastes(START, ms, st), n, ty)
  {
    StartOk(st, written);
    RunStaysUnechoed(START, ms, st, written);
    OnlyStaleEchoes(s, StalePastes(START, ms, st), a.batch, n, ty);
    StepIsLegal(s, a, st, written);
    RoundtripLeadsToReading(s.client, a, n, ty, pipes, st, written);
  }

  /** A compositor that lets other clients paste from the current selection only makes no stale pastes. */
  lemma {:induction false} NoStalePastes(s: System, ms: seq<Move>, st: Settings)
    requires forall i :: 0 <= i < |ms| && ms[i].Paste? ==> BehindCurrent(After(s, ms[..i], st).server, ms[i].source)
    ensures StalePastes(s, ms, st) == {}
  {
    if ms != [] {
      var front := ms[..|ms| - 1];
      forall i | 0 <= i < |front| && front[i].Paste?
        ensures BehindCurrent(After(s, front[..i], st).server, front[i].source)
      {
        assert front[..i] == ms[..i];
      }
      NoStalePastes(s, front, st);
    }
  }
}
