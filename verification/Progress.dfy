/** What the client is sure to do. From the point of view of one selection, any run of the client is a
    run of the pipe reader followed by at most one publication of what it has read: the rest of the
    client, with all its other selections, cannot be told from the reader being dropped and resumed. */
module Progress {
  import opened Protocol
  import opened MimeAccounting
  import opened PipeReader
  import opened History
  import opened ClientSpec
  import opened ClientInvariant
  import opened Resolution
  import opened ClientRuns
  import opened ClientTheorems

  /** The publications made for one selection, in order. */
  function PublishedFor(ps: seq<Publication>, n: SeatName, ty: SelectionType): seq<Publication> {
    if ps == [] then []
    else
      var front, p := PublishedFor(ps[..|ps| - 1], n, ty), ps[|ps| - 1];
      if p.seat == n && p.ty == ty then front + [p] else front
  }

  lemma PublishedForOne(ps: seq<Publication>, p: Publication, n: SeatName, ty: SelectionType)
    ensures PublishedFor(ps + [p], n, ty) == PublishedFor(ps, n, ty) + if p.seat == n && p.ty == ty then [p] else []
  {
    assert (ps + [p])[..|ps|] == ps;
  }

  function Posts(w: World, n: SeatName, ty: SelectionType): seq<Publication> {
    PublishedFor(w.published, n, ty)
  }

  /** One more publication, of these data. */
  predicate OneMore(before: seq<Publication>, after: seq<Publication>, ordered: seq<Mime>, data: map<Mime, Bytes>) {
    && |after| == |before| + 1 && before <= after
    && after[|before|].data == data && after[|before|].offered == Keep(ordered, data.Keys)
  }

  /** The selection was left alone, or the data it held back were published. */
  predicate LeftOrPosted(w: World, w': World, n: SeatName, ty: SelectionType) {
    || (At(w', n, ty) == At(w, n, ty) && Posts(w', n, ty) == Posts(w, n, ty))
    || (&& At(w, n, ty).Some? && At(w, n, ty).value.GotData?
        && At(w', n, ty) == Some(Waiting) && w'.seats[n].offers == map[]
        && OneMore(Posts(w, n, ty), Posts(w', n, ty), At(w, n, ty).value.ordered, At(w, n, ty).value.data))
  }

  // ----- the steps of the client, seen from one selection -----

  lemma SetClipboardPosts(w: World, m: SeatName, tz: SelectionType, ordered: seq<Mime>, data: map<Mime, Bytes>,
                          n: SeatName, ty: SelectionType)
    requires m in w.seats
    ensures var w' := SetClipboard(w, m, tz, ordered, data);
            && (m != n || tz != ty ==> At(w', n, ty) == At(w, n, ty) && Posts(w', n, ty) == Posts(w, n, ty))
            && (m == n && tz == ty ==>
                  At(w', n, ty) == Some(Waiting) && OneMore(Posts(w, n, ty), Posts(w', n, ty), ordered, data))
  {
    var w' := SetClipboard(w, m, tz, ordered, data);
    var p := w'.published[|w.published|];
    assert w'.published == w.published + [p];
    PublishedForOne(w.published, p, n, ty);
  }

  lemma PublishPosts(w: World, m: SeatName, tz: SelectionType, n: SeatName, ty: SelectionType)
    ensures LeftOrPosted(w, Publish(w, m, tz), n, ty)
  {
    if At(w, m, tz).Some? && At(w, m, tz).value.GotData? {
      SetClipboardPosts(w, m, tz, At(w, m, tz).value.ordered, At(w, m, tz).value.data, n, ty);
    }
  }

  lemma PublishKeepsOffers(w: World, m: SeatName, tz: SelectionType)
    ensures var w' := Publish(w, m, tz);
            w'.seats.Keys == w.seats.Keys && forall n :: n in w.seats ==> w'.seats[n].offers == w.seats[n].offers
  {
  }

  lemma {:induction false} PublishAllPosts(w: World, slots: seq<Slot>, n: SeatName, ty: SelectionType)
    ensures LeftOrPosted(w, PublishAll(w, slots), n, ty)
  {
    if slots != [] {
      var front, last := slots[..|slots| - 1], slots[|slots| - 1];
      PublishAllPosts(w, front, n, ty);
      PublishPosts(PublishAll(w, front), last.seat, last.ty, n, ty);
      PublishKeepsOffers(PublishAll(w, front), last.seat, last.ty);
    }
  }

  lemma TurnPosts(w: World, st: Settings, env: Env, n: SeatName, ty: SelectionType)
    requires Settled(w, n, ty)
    ensures LeftOrPosted(w, TakeTurn(w, st, env).world, n, ty)
  {
    var slots := Slots(env.order(w.seats.Keys));
    PrepareAllFrame(w, slots, st, env, n, ty);
    var (w1, awaiting) := PrepareAll(w, slots, st, env);
    if awaiting == [] {
      PublishAllPosts(w1, Slots(env.order(w1.seats.Keys)), n, ty);
    } else {
      assert At(ClearFlags(w1), n, ty) == At(w1, n, ty);
    }
  }

  /** Events that do not concern the selection leave it alone, or let it publish. */
  lemma BatchPosts(c: Client, a: Action, st: Settings, n: SeatName, ty: SelectionType)
    requires Settled(c.world, n, ty) && (a.Events? || (a.RoundtripDone? && c.phase.InRoundtrip?))
    requires !TouchedIn(a.batch, n, ty)
    ensures LeftOrPosted(c.world, Apply(c, a, st).world, n, ty)
  {
    var w1 := DispatchAll(c.world, a.batch, st, a.env);
    HeldThroughDispatch(c.world, a.batch, n, ty, st, a.env);
    DispatchAllHistory(c.world, a.batch, st, a.env);
    if !w1.managerRemoved {
      if a.Events? {
        TurnPosts(w1, st, a.env, n, ty);
      } else {
        ResolveAllFrame(w1, c.phase.awaiting, n, ty);
        if ResolveAll(w1, c.phase.awaiting).Continues? {
          var w2 := ResolveAll(w1, c.phase.awaiting).world;
          if AnyFlag(w1) {
            TurnPosts(w2, st, a.env, n, ty);
          } else {
            PublishAllPosts(w2, Slots(a.env.order(w2.seats.Keys)), n, ty);
          }
        }
      }
    }
  }

  /** The selection holds data back. */
  predicate Holds(w: World, n: SeatName, ty: SelectionType) {
    At(w, n, ty).Some? && At(w, n, ty).value.GotData?
  }

  /** No publication is forgotten. While the program waits, data are held back only because an offer of
      the seat is unresolved; and events that do not concern the selection leave the data alone until
      they leave the seat without such an offer: then the data are published in that same turn. */
  lemma NothingHeldBackIsForgotten(c: Client, a: Action, st: Settings, written: Content, n: SeatName, ty: SelectionType)
    requires ClientOk(c, st, written) && Legal(c, a, written) && Holds(c.world, n, ty)
    requires !a.PipeReady? && !TouchedIn(a.batch, n, ty)
    ensures c.phase.Idle? ==> c.world.seats[n].offers != map[]
    ensures var s, c' := At(c.world, n, ty).value, Apply(c, a, st);
            && (c'.phase.Idle? ==> (Holds(c'.world, n, ty) <==>
                                    n in c'.world.seats && c'.world.seats[n].offers != map[]))
            && if Holds(c'.world, n, ty) then At(c'.world, n, ty) == Some(s) &&
                 Posts(c'.world, n, ty) == Posts(c.world, n, ty)
               else OneMore(Posts(c.world, n, ty), Posts(c'.world, n, ty), s.ordered, s.data)
  {
    if c.phase.Idle? { assert Posted(c.world, n, ty); }
    var c' := Apply(c, a, st);
    BatchPosts(c, a, st, n, ty);
    ApplyOk(c, a, st, written);
    if c'.phase.Idle? { assert Posted(c'.world, n, ty); }
  }

  lemma UsedPosts(w: World, m: SeatName, tz: SelectionType, ordered: seq<Mime>, data: map<Mime, Bytes>, n: SeatName,
                  ty: SelectionType)
    requires m in w.seats && (m != n || tz != ty)
    ensures Posts(Used(w, m, tz, ordered, data), n, ty) == Posts(w, n, ty)
  {
    SetClipboardPosts(w, m, tz, ordered, data, n, ty);
  }

  lemma OtherPipePosts(w: World, m: SeatName, tz: SelectionType, i: nat, d: Delivery, st: Settings, n: SeatName,
                       ty: SelectionType)
    requires CanRead(w, m, tz, i) && (m != n || tz != ty) && Deliver(w, m, tz, i, d, st).Continues?
    ensures Posts(Deliver(w, m, tz, i, d, st).world, n, ty) == Posts(w, n, ty)
  {
    var s := At(w, m, tz).value;
    var step := Wake(s.reader, i, d, st);
    var w1 := if d.Broken? then NoteFault(w, m, tz, s.reader.pipes[i].mime) else w;
    assert w1.seats == w.seats && w1.published == w.published;
    if step.verdict.Complete? {
      UsedPosts(w1, m, tz, s.ordered, Collect(step.reader.pipes).value, n, ty);
    }
  }

  // ----- the client refines the reader -----

  /** Where a selection is when its reader, left to itself, would be at `step`. `before` are the
      publications that were made before reading began. */
  predicate Tracks(before: seq<Publication>, w: World, n: SeatName, ty: SelectionType, ordered: seq<Mime>, step: Step) {
    var s, now := At(w, n, ty), Posts(w, n, ty);
    match step.verdict
    case Pending => s == Some(GotPipes(ordered, step.reader)) && now == before
    case Abandoned(_) => s == Some(Waiting) && now == before
    case Unreachable => false
    case Complete =>
      match Collect(step.reader.pipes)
      case None => false
      case Some(data) =>
        if data == map[] then s == Some(Waiting) && now == before
        else || (s == Some(GotData(ordered, data)) && now == before)
             || (s == Some(Waiting) && OneMore(before, now, ordered, data))
  }

  lemma OwnPipeTracks(w: World, n: SeatName, ty: SelectionType, i: nat, d: Delivery, st: Settings)
    requires CanRead(w, n, ty, i) && Deliver(w, n, ty, i, d, st).Continues?
    ensures var s := At(w, n, ty).value;
            Tracks(Posts(w, n, ty), Deliver(w, n, ty, i, d, st).world, n, ty, s.ordered, Wake(s.reader, i, d, st))
  {
    var s := At(w, n, ty).value;
    var step := Wake(s.reader, i, d, st);
    var w1 := if d.Broken? then NoteFault(w, n, ty, s.reader.pipes[i].mime) else w;
    assert w1.seats == w.seats && w1.published == w.published;
    if step.verdict.Complete? && Collect(step.reader.pipes).Some? {
      OwnDataUsed(w1, n, ty, s.ordered, Collect(step.reader.pipes).value);
    }
  }

  lemma OwnDataUsed(w: World, n: SeatName, ty: SelectionType, ordered: seq<Mime>, data: map<Mime, Bytes>)
    requires n in w.seats
    ensures var w' := Used(w, n, ty, ordered, data);
            var s, now, before := At(w', n, ty), Posts(w', n, ty), Posts(w, n, ty);
            if data == map[] then s == Some(Waiting) && now == before
            else || (s == Some(GotData(ordered, data)) && now == before)
                 || (s == Some(Waiting) && OneMore(before, now, ordered, data))
  {
    SetClipboardPosts(w, n, ty, ordered, data, n, ty);
  }

  /** The schedule that a selection sees: its own pipes, and interruptions. */
  function TurnsOf(actions: seq<Action>, n: SeatName, ty: SelectionType): seq<Turn> {
    if actions == [] then []
    else
      var a := actions[|actions| - 1];
      TurnsOf(actions[..|actions| - 1], n, ty)
      + [if a.PipeReady? && a.seat == n && a.ty == ty then Ready(a.pipe, a.delivery) else Reenter]
  }

  lemma {:induction false} ReadOneMore(r: Reader, turns: seq<Turn>, t: Turn, st: Settings)
    ensures var s := Read(r, turns, st);
            Read(r, turns + [t], st) ==
            if !s.verdict.Pending? || t.Reenter? || t.pipe >= |s.reader.pipes| then s
            else Wake(s.reader, t.pipe, t.delivery, st)
    decreases |turns|
  {
    var all := turns + [t];
    if turns == [] {
      assert all[1..] == [];
    } else {
      assert all[1..] == turns[1..] + [t];
      match turns[0]
      case Reenter => ReadOneMore(r, turns[1..], t, st);
      case Ready(i, d) =>
        if i >= |r.pipes| {
          ReadOneMore(r, turns[1..], t, st);
        } else if Wake(r, i, d, st).verdict.Pending? {
          ReadOneMore(Wake(r, i, d, st).reader, turns[1..], t, st);
        }
    }
  }

  /** No event in the run concerns the selection: none names it, adds its seat or removes it. */
  predicate LeavesAlone(actions: seq<Action>, n: SeatName, ty: SelectionType) {
    forall k :: 0 <= k < |actions| && !actions[k].PipeReady? ==> !TouchedIn(actions[k].batch, n, ty)
  }

  /** The client refines the reader. Whatever else happens in a run, as long as no event concerns the
      selection it goes exactly where its reader goes along the schedule the selection sees; and when
      the reader is complete, its data are published once, or held back. */
  lemma {:induction false} ClientRefinesReader(c: Client, actions: seq<Action>, st: Settings, written: Content,
                                               n: SeatName, ty: SelectionType)
    requires ClientOk(c, st, written) && LegalFrom(c, actions, st, written) && LeavesAlone(actions, n, ty)
    requires At(c.world, n, ty).Some? && At(c.world, n, ty).value.GotPipes?
    ensures var s := At(c.world, n, ty).value;
            Tracks(Posts(c.world, n, ty), Follow(c, actions, st).world, n, ty, s.ordered,
                   Read(s.reader, TurnsOf(actions, n, ty), st))
  {
    if actions != [] {
      var front, a := actions[..|actions| - 1], actions[|actions| - 1];
      assert forall k :: 0 <= k < |front| ==> front[k] == actions[k];
      ClientRefinesReader(c, front, st, written, n, ty);
      FollowOk(c, front, st, written);
      var s := At(c.world, n, ty).value;
      var t := TurnsOf(actions, n, ty)[|TurnsOf(front, n, ty)|];
      ReadOneMore(s.reader, TurnsOf(front, n, ty), t, st);
      TracksOneMore(Posts(c.world, n, ty), Follow(c, front, st), a, st, written, n, ty, s.ordered,
                    Read(s.reader, TurnsOf(front, n, ty), st));
    }
  }

  lemma TracksOneMore(before: seq<Publication>, c: Client, a: Action, st: Settings, written: Content, n: SeatName,
                      ty: SelectionType, ordered: seq<Mime>, step: Step)
    requires ClientOk(c, st, written) && Legal(c, a, written) && Tracks(before, c.world, n, ty, ordered, step)
    requires !a.PipeReady? ==> !TouchedIn(a.batch, n, ty)
    ensures var mine := a.PipeReady? && a.seat == n && a.ty == ty;
            Tracks(before, Apply(c, a, st).world, n, ty, ordered,
                   if !step.verdict.Pending? || !mine || a.pipe >= |step.reader.pipes| then step
                   else Wake(step.reader, a.pipe, a.delivery, st))
  {
    if !a.PipeReady? {
      BatchPosts(c, a, st, n, ty);
    } else {
      DeliverOk(c.world, a.seat, a.ty, a.pipe, a.delivery, st, written);
      if a.seat == n && a.ty == ty {
        OwnPipeTracks(c.world, n, ty, a.pipe, a.delivery, st);
      } else {
        OtherPipePosts(c.world, a.seat, a.ty, a.pipe, a.delivery, st, n, ty);
      }
    }
  }

  // ----- what is written is published -----

  lemma {:induction false} PossibleOneMore(r: Reader, turns: seq<Turn>, t: Turn, content: seq<Bytes>, st: Settings)
    requires |content| == |r.pipes| && Possible(r, turns, content, st)
    requires var s := Read(r, turns, st);
             s.verdict.Pending? && t.Ready? ==>
               && |content| == |s.reader.pipes| && t.pipe < |content|
               && Deliverable(s.reader.pipes[t.pipe], content[t.pipe], t.delivery)
    ensures Possible(r, turns + [t], content, st)
    decreases |turns|
  {
    var all := turns + [t];
    if turns == [] {
      assert all[1..] == [];
    } else {
      assert all[1..] == turns[1..] + [t];
      match turns[0]
      case Reenter => PossibleOneMore(r, turns[1..], t, content, st);
      case Ready(i, d) =>
        if Wake(r, i, d, st).verdict.Pending? {
          PossibleOneMore(Wake(r, i, d, st).reader, turns[1..], t, content, st);
        }
    }
  }

  lemma {:induction false} ReadKeepsTypes(r: Reader, turns: seq<Turn>, st: Settings)
    ensures var p := Read(r, turns, st).reader.pipes;
            |p| == |r.pipes| && forall i :: 0 <= i < |p| ==> p[i].mime == r.pipes[i].mime
    decreases |turns|
  {
    if turns != [] {
      match turns[0]
      case Reenter => ReadKeepsTypes(r, turns[1..], st);
      case Ready(i, d) =>
        if i >= |r.pipes| {
          ReadKeepsTypes(r, turns[1..], st);
        } else if Wake(r, i, d, st).verdict.Pending? {
          ReadKeepsTypes(Wake(r, i, d, st).reader, turns[1..], st);
        }
    }
  }

  lemma {:induction false} UntouchedEvents(h: History, batch: seq<Event>, n: SeatName, ty: SelectionType)
    requires !TouchedIn(batch, n, ty)
    ensures LastSelection(Extend(h, batch), n, ty) == LastSelection(h, n, ty)
  {
    if batch != [] {
      assert batch[|batch| - 1] in batch && forall e :: e in batch[..|batch| - 1] ==> e in batch;
      UntouchedEvents(h, batch[..|batch| - 1], n, ty);
    }
  }

  lemma {:induction false} PrepareAllHistory(w: World, slots: seq<Slot>, st: Settings, env: Env)
    ensures PrepareAll(w, slots, st, env).0.history == w.history
  {
    if slots != [] {
      PrepareAllHistory(w, slots[..|slots| - 1], st, env);
    }
  }

  lemma {:induction false} ResolveAllHistory(w: World, awaiting: seq<Awaiting>)
    ensures ResolveAll(w, awaiting).Continues? ==> ResolveAll(w, awaiting).world.history == w.history
  {
    if awaiting != [] {
      ResolveAllHistory(w, awaiting[..|awaiting| - 1]);
    }
  }

  lemma {:induction false} PublishAllHistory(w: World, slots: seq<Slot>)
    ensures PublishAll(w, slots).history == w.history
  {
    if slots != [] {
      PublishAllHistory(w, slots[..|slots| - 1]);
    }
  }

  lemma TurnHistory(w: World, st: Settings, env: Env)
    ensures TakeTurn(w, st, env).world.history == w.history
  {
    var (w1, awaiting) := PrepareAll(w, Slots(env.order(w.seats.Keys)), st, env);
    PrepareAllHistory(w, Slots(env.order(w.seats.Keys)), st, env);
    PublishAllHistory(w1, Slots(env.order(w1.seats.Keys)));
  }

  /** The history of a run is what was dispatched. */
  lemma ApplyHistory(c: Client, a: Action, st: Settings)
    requires a.Events? || (a.RoundtripDone? && c.phase.InRoundtrip?)
    ensures Apply(c, a, st).world.history == Extend(c.world.history, a.batch)
  {
    var w1 := DispatchAll(c.world, a.batch, st, a.env);
    DispatchAllHistory(c.world, a.batch, st, a.env);
    if !w1.managerRemoved {
      if a.Events? {
        TurnHistory(w1, st, a.env);
      } else if ResolveAll(w1, c.phase.awaiting).Continues? {
        ResolveAllHistory(w1, c.phase.awaiting);
        var w2 := ResolveAll(w1, c.phase.awaiting).world;
        TurnHistory(w2, st, a.env);
        PublishAllHistory(w2, Slots(a.env.order(w2.seats.Keys)));
      }
    }
  }

  lemma DeliverHistory(w: World, n: SeatName, ty: SelectionType, i: nat, d: Delivery, st: Settings)
    requires CanRead(w, n, ty, i) && Deliver(w, n, ty, i, d, st).Continues?
    ensures Deliver(w, n, ty, i, d, st).world.history == w.history
  {
  }

  /** As long as no event concerns a selection, its offer stays the same. */
  lemma {:induction false} OriginStays(c: Client, actions: seq<Action>, st: Settings, written: Content, n: SeatName,
                                       ty: SelectionType)
    requires ClientOk(c, st, written) && LegalFrom(c, actions, st, written) && LeavesAlone(actions, n, ty)
    ensures Origin(Follow(c, actions, st).world.history, n, ty) == Origin(c.world.history, n, ty)
  {
    if actions != [] {
      var front, a := actions[..|actions| - 1], actions[|actions| - 1];
      assert forall k :: 0 <= k < |front| ==> front[k] == actions[k];
      OriginStays(c, front, st, written, n, ty);
      FollowOk(c, front, st, written);
      var c1 := Follow(c, front, st);
      if a.PipeReady? {
        DeliverOk(c1.world, a.seat, a.ty, a.pipe, a.delivery, st, written);
        DeliverHistory(c1.world, a.seat, a.ty, a.pipe, a.delivery, st);
      } else {
        ApplyHistory(c1, a, st);
        UntouchedEvents(c1.world.history, a.batch, n, ty);
      }
    }
  }

  /** The deliveries that a legal run makes to a selection are possible ones. */
  lemma {:induction false} RunsDeliverWhatIsWritten(c: Client, actions: seq<Action>, st: Settings, written: Content,
                                                    n: SeatName, ty: SelectionType, o: OfferId)
    requires ClientOk(c, st, written) && LegalFrom(c, actions, st, written) && LeavesAlone(actions, n, ty)
    requires At(c.world, n, ty).Some? && At(c.world, n, ty).value.GotPipes? && Origin(c.world.history, n, ty) == Some(o)
    ensures var r := At(c.world, n, ty).value.reader;
            Possible(r, TurnsOf(actions, n, ty), Contents(r.pipes, o, written), st)
  {
    if actions != [] {
      var front, a := actions[..|actions| - 1], actions[|actions| - 1];
      assert forall k :: 0 <= k < |front| ==> front[k] == actions[k];
      RunsDeliverWhatIsWritten(c, front, st, written, n, ty, o);
      ClientRefinesReader(c, front, st, written, n, ty);
      OriginStays(c, front, st, written, n, ty);
      var r, turns := At(c.world, n, ty).value.reader, TurnsOf(front, n, ty);
      ReadKeepsTypes(r, turns, st);
      PossibleOneMore(r, turns, TurnsOf(actions, n, ty)[|turns|], Contents(r.pipes, o, written), st);
    }
  }

  /** No read error on the pipes of the selection. */
  predicate NoReadErrors(actions: seq<Action>, n: SeatName, ty: SelectionType) {
    forall k :: 0 <= k < |actions| && actions[k].PipeReady? && actions[k].seat == n && actions[k].ty == ty ==>
      actions[k].delivery != Broken
  }

  lemma {:induction false} NoErrorsNothingBreaks(actions: seq<Action>, n: SeatName, ty: SelectionType)
    requires NoReadErrors(actions, n, ty)
    ensures NothingBreaks(TurnsOf(actions, n, ty))
  {
    if actions != [] {
      var front := actions[..|actions| - 1];
      assert forall k :: 0 <= k < |front| ==> front[k] == actions[k];
      NoErrorsNothingBreaks(front, n, ty);
    }
  }

  /** All that is written to the pipes exceeds the limit, together with the names. */
  ghost predicate TooMuch(pipes: seq<PipeRecord>, ordered: seq<Mime>, o: OfferId, st: Settings, written: Content) {
    st.limit.Some? && NameBytes(Elements(ordered)) + TotalLength(Contents(pipes, o, written)) > st.limit.value
  }

  /** What is read is published. Pipes that are being read without errors, whatever else happens in
      between, come to one of two ends: too much was written, and the selection is left alone; or one
      publication is made, or held back, of everything that was written to every pipe. */
  lemma WhatIsWrittenIsPublished(c: Client, actions: seq<Action>, st: Settings, written: Content, n: SeatName,
                                 ty: SelectionType, o: OfferId)
    requires ClientOk(c, st, written) && LegalFrom(c, actions, st, written) && LeavesAlone(actions, n, ty)
    requires At(c.world, n, ty).Some? && At(c.world, n, ty).value.GotPipes? && Origin(c.world.history, n, ty) == Some(o)
    requires NoneFailed(At(c.world, n, ty).value.reader.pipes) && NoReadErrors(actions, n, ty)
    requires !Read(At(c.world, n, ty).value.reader, TurnsOf(actions, n, ty), st).verdict.Pending?
    ensures var s, w' := At(c.world, n, ty).value, Follow(c, actions, st).world;
            var content := Contents(s.reader.pipes, o, written);
            var data := WholeContents(s.reader.pipes, content);
            if TooMuch(s.reader.pipes, s.ordered, o, st, written) then
              At(w', n, ty) == Some(Waiting) && Posts(w', n, ty) == Posts(c.world, n, ty)
            else
              || (At(w', n, ty) == Some(GotData(s.ordered, data)) && Posts(w', n, ty) == Posts(c.world, n, ty))
              || (At(w', n, ty) == Some(Waiting) && OneMore(Posts(c.world, n, ty), Posts(w', n, ty), s.ordered, data))
  {
    var s := At(c.world, n, ty).value;
    var content := Contents(s.reader.pipes, o, written);
    assert SelectionOk(c.world.history, c.world.out, c.world.faults, n, ty, s, st, written);
    assert Faithful(s.reader.pipes, content);
    ClientRefinesReader(c, actions, st, written, n, ty);
    RunsDeliverWhatIsWritten(c, actions, st, written, n, ty, o);
    NoErrorsNothingBreaks(actions, n, ty);
    ScheduleIndependence(s.reader, TurnsOf(actions, n, ty), content, NameBytes(Elements(s.ordered)), st);
    WholeContentsAt(s.reader.pipes, content, 0);
    assert s.reader.pipes[0] in s.reader.pipes;
  }
}
