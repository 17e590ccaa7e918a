/** How the client ends, and which selections it looks after: what the events and the settings say about it,
    over every run. */
module Endings {
  import opened Protocol
  import opened PipeReader
  import opened History
  import opened ClientSpec
  import opened ClientInvariant
  import opened Resolution
  import opened ClientRuns
  import opened Progress

  /** A global that is no known seat was removed, and it was the manager. */
  predicate ManagerGone(h: History) {
    && h.Then?
    && (|| ManagerGone(h.past)
        || (h.event.GlobalRemoved? && h.event.manager && !Known(h.past, h.event.seat)))
  }

  // ----- only events note a lost manager -----

  lemma {:induction false} PrepareKeepsManager(w: World, slots: seq<Slot>, st: Settings, env: Env)
    ensures PrepareAll(w, slots, st, env).0.managerRemoved == w.managerRemoved
  {
    if slots != [] {
      PrepareKeepsManager(w, slots[..|slots| - 1], st, env);
    }
  }

  lemma {:induction false} PublishKeepsManager(w: World, slots: seq<Slot>)
    ensures PublishAll(w, slots).managerRemoved == w.managerRemoved
  {
    if slots != [] {
      PublishKeepsManager(w, slots[..|slots| - 1]);
    }
  }

  lemma TurnKeepsManager(w: World, st: Settings, env: Env)
    ensures TakeTurn(w, st, env).world.managerRemoved == w.managerRemoved
  {
    PrepareKeepsManager(w, Slots(env.order(w.seats.Keys)), st, env);
    var w1 := PrepareAll(w, Slots(env.order(w.seats.Keys)), st, env).0;
    PublishKeepsManager(w1, Slots(env.order(w1.seats.Keys)));
  }

  lemma {:induction false} ResolveKeepsManager(w: World, awaiting: seq<Awaiting>)
    ensures ResolveAll(w, awaiting).Continues? ==> ResolveAll(w, awaiting).world.managerRemoved == w.managerRemoved
  {
    if awaiting != [] {
      ResolveKeepsManager(w, awaiting[..|awaiting| - 1]);
    }
  }

  lemma DeliverKeepsManager(w: World, n: SeatName, ty: SelectionType, i: nat, d: Delivery, st: Settings)
    requires CanRead(w, n, ty, i) && Deliver(w, n, ty, i, d, st).Continues?
    ensures Deliver(w, n, ty, i, d, st).world.managerRemoved == w.managerRemoved
  {
  }

  lemma {:induction false} DispatchNotes(w: World, batch: seq<Event>, awaiting: seq<Awaiting>, st: Settings, env: Env,
                                         written: Content)
    requires WorldOk(w, st, written) && FreshOffers(w.history, batch) && RoundOk(w, awaiting, st, written)
    requires w.managerRemoved <==> ManagerGone(w.history)
    ensures var w' := DispatchAll(w, batch, st, env); w'.managerRemoved <==> ManagerGone(w'.history)
  {
    if batch != [] {
      var front, e := batch[..|batch| - 1], batch[|batch| - 1];
      DispatchNotes(w, front, awaiting, st, env, written);
      DispatchAllOk(w, front, awaiting, st, env, written);
      var w1 := DispatchAll(w, front, st, env);
      NotesOne(w1, e, st, env);
    }
  }

  lemma NotesOne(w: World, e: Event, st: Settings, env: Env)
    requires forall n :: SeatOk(w, n, st)
    ensures var w' := Dispatch(w, e, st, env);
            && w'.history == Then(w.history, e)
            && (w'.managerRemoved <==>
                  w.managerRemoved || (e.GlobalRemoved? && e.manager && !Known(w.history, e.seat)))
  {
    if e.GlobalRemoved? {
      assert SeatOk(w, e.seat, st);
    }
  }

  /** The client has stopped exactly when it has noted that the manager is gone, and it has noted that exactly
      when an event said so. */
  ghost predicate EndsRightly(c: Client) {
    && (c.world.managerRemoved <==> ManagerGone(c.world.history))
    && (c.phase.Stopped? <==> c.world.managerRemoved)
  }

  lemma StepEndsRightly(c: Client, a: Action, st: Settings, written: Content)
    requires ClientOk(c, st, written) && Legal(c, a, written) && EndsRightly(c)
    ensures EndsRightly(Apply(c, a, st))
  {
    if a.PipeReady? {
      DeliverOk(c.world, a.seat, a.ty, a.pipe, a.delivery, st, written);
      DeliverHistory(c.world, a.seat, a.ty, a.pipe, a.delivery, st);
      DeliverKeepsManager(c.world, a.seat, a.ty, a.pipe, a.delivery, st);
    } else {
      var awaiting := if c.phase.InRoundtrip? then c.phase.awaiting else [];
      assert RoundOk(c.world, awaiting, st, written);
      DispatchNotes(c.world, a.batch, awaiting, st, a.env, written);
      DispatchAllHistory(c.world, a.batch, st, a.env);
      BatchEndsRightly(c, a, st);
    }
  }

  lemma BatchEndsRightly(c: Client, a: Action, st: Settings)
    requires Enabled(c, a) && !a.PipeReady?
    ensures var c', w1 := Apply(c, a, st), DispatchAll(c.world, a.batch, st, a.env);
            && c'.world.managerRemoved == w1.managerRemoved && c'.world.history == w1.history
            && (c'.phase.Stopped? <==> w1.managerRemoved)
  {
    var w1 := DispatchAll(c.world, a.batch, st, a.env);
    DispatchAllHistory(c.world, a.batch, st, a.env);
    ApplyHistory(c, a, st);
    if a.Events? {
      TurnKeepsManager(w1, st, a.env);
    } else {
      ResolveKeepsManager(w1, c.phase.awaiting);
      if ResolveAll(w1, c.phase.awaiting).Continues? {
        var w2 := ResolveAll(w1, c.phase.awaiting).world;
        TurnKeepsManager(w2, st, a.env);
        PublishKeepsManager(w2, Slots(a.env.order(w2.seats.Keys)));
      }
    }
  }

  /** Over every run: the client stops if and only if the manager was removed, and goes on otherwise. */
  lemma {:induction false} StopsExactlyWithoutManager(actions: seq<Action>, st: Settings, written: Content)
    requires LegalRun(actions, st, written)
    ensures var c := Run(actions, st);
            && (c.phase.Stopped? <==> ManagerGone(c.world.history))
            && (c.world.managerRemoved <==> ManagerGone(c.world.history))
  {
    RunsEndRightly(actions, st, written);
  }

  lemma {:induction false} RunsEndRightly(actions: seq<Action>, st: Settings, written: Content)
    requires LegalRun(actions, st, written)
    ensures EndsRightly(Run(actions, st))
  {
    if actions != [] {
      var front := actions[..|actions| - 1];
      RunsEndRightly(front, st, written);
      RunsAreOk(front, st, written);
      StepEndsRightly(Run(front, st), actions[|actions| - 1], st, written);
    }
  }

  /** Over every run the seats are those that exist, and each has the selections that the settings name. */
  lemma SelectionsFollowSettings(actions: seq<Action>, st: Settings, written: Content, n: SeatName)
    requires LegalRun(actions, st, written)
    ensures var w := Run(actions, st).world;
            && (n in w.seats <==> Known(w.history, n))
            && (At(w, n, Regular).Some? <==>
                  Known(w.history, n) && (st.clipboard == OnlyRegular || st.clipboard == Both))
            && (At(w, n, Primary).Some? <==>
                  Known(w.history, n) && (st.clipboard == OnlyPrimary || st.clipboard == Both))
  {
    RunsAreOk(actions, st, written);
    assert SeatOk(Run(actions, st).world, n, st);
  }
}
