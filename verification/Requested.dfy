/** Which data the client asks for: over every run, only those of offers that it takes up, and only for
    types that were advertised, but for the one type that is not requested. */
module Requested {
  import opened Protocol
  import opened MimeAccounting
  import opened PipeReader
  import opened History
  import opened ClientSpec
  import opened ClientInvariant
  import opened Resolution
  import opened ClientRuns
  import opened Wire
  import opened Asked

  // ----- steps that ask for nothing -----

  /** Only other requests than for data were added. */
  predicate AsksNothing(out: seq<Request>, out': seq<Request>) {
    out <= out' && forall r :: r in out'[|out|..] ==> !r.Receive?
  }

  lemma AsksNothingTwice(a: seq<Request>, b: seq<Request>, c: seq<Request>)
    requires AsksNothing(a, b) && AsksNothing(b, c)
    ensures AsksNothing(a, c)
  {
    assert c[|a|..] == b[|a|..] + c[|b|..];
  }

  lemma {:induction false} ResolvingAsksNothing(w: World, awaiting: seq<Awaiting>)
    requires ResolveAll(w, awaiting).Continues?
    ensures AsksNothing(w.out, ResolveAll(w, awaiting).world.out)
  {
    if awaiting != [] {
      var front, a := awaiting[..|awaiting| - 1], awaiting[|awaiting| - 1];
      ResolvingAsksNothing(w, front);
      var w1 := ResolveAll(w, front).world;
      if IsReading(w1, a.seat, a.ty) {
        assert Teardown(At(w1, a.seat, a.ty)) == [DestroyOffer(At(w1, a.seat, a.ty).value.offer)];
      }
      assert AsksNothing(w1.out, Resolve(w1, a).world.out);
      AsksNothingTwice(w.out, w1.out, ResolveAll(w, awaiting).world.out);
    }
  }

  lemma NothingOnOffers(rs: seq<Request>)
    requires forall r, o :: r in rs ==> !OnOffer(o)(r)
    ensures forall r :: r in rs ==> !r.Receive?
  {
    forall r | r in rs ensures !r.Receive? {
      assert r.Receive? ==> OnOffer(r.offer)(r);
    }
  }

  lemma {:induction false} PublishingAsksNothing(w: World, slots: seq<Slot>)
    ensures AsksNothing(w.out, PublishAll(w, slots).out)
  {
    if slots != [] {
      var last, w1 := slots[|slots| - 1], PublishAll(w, slots[..|slots| - 1]);
      PublishingAsksNothing(w, slots[..|slots| - 1]);
      if !Posted(w1, last.seat, last.ty) {
        var s := At(w1, last.seat, last.ty).value;
        SetClipboardSends(w1, last.seat, last.ty, s.ordered, s.data);
        NothingOnOffers(SetClipboard(w1, last.seat, last.ty, s.ordered, s.data).out[|w1.out|..]);
      }
      AsksNothingTwice(w.out, w1.out, PublishAll(w, slots).out);
    }
  }

  lemma {:induction false} DispatchingAsksNothing(w: World, batch: seq<Event>, st: Settings, env: Env)
    requires EnvOk(env)
    ensures AsksNothing(w.out, DispatchAll(w, batch, st, env).out)
  {
    if batch != [] {
      var w1 := DispatchAll(w, batch[..|batch| - 1], st, env);
      DispatchingAsksNothing(w, batch[..|batch| - 1], st, env);
      DispatchAsksNothing(w1, batch[|batch| - 1], st, env);
      AsksNothingTwice(w.out, w1.out, DispatchAll(w, batch, st, env).out);
    }
  }

  // ----- what is asked for -----

  /** The request asks a resolved and welcome offer for one of the types that it advertised, and not for the
      type that its owner never answers, unless the settings want that. */
  ghost predicate RightlyAsked(h: History, r: Request, st: Settings)
    requires r.Receive?
  {
    var ms := Advertised(h, r.offer);
    && Resolved(h, r.offer) && Welcome(ms, st)
    && r.mime in ms && (r.mime == "SAVE_TARGETS" ==> st.requestIgnored)
  }

  ghost predicate AllRightlyAsked(w: World, st: Settings) {
    forall r :: r in w.out && r.Receive? ==> RightlyAsked(w.history, r, st)
  }

  lemma QuietlyRight(w: World, w': World, st: Settings)
    requires AllRightlyAsked(w, st) && AsksNothing(w.out, w'.out) && w'.history == w.history
    ensures AllRightlyAsked(w', st)
  {
    assert w'.out == w.out + w'.out[|w.out|..];
  }

  lemma {:induction false} LaterRight(w: World, w': World, batch: seq<Event>, st: Settings)
    requires AllRightlyAsked(w, st) && AsksNothing(w.out, w'.out)
    requires FreshOffers(w.history, batch) && w'.history == Extend(w.history, batch)
    ensures AllRightlyAsked(w', st)
  {
    assert w'.out == w.out + w'.out[|w.out|..];
    forall r | r in w'.out && r.Receive? ensures RightlyAsked(w'.history, r, st) {
      StaysResolved(w.history, batch, r.offer);
    }
  }

  lemma {:induction false} StaysResolved(h: History, batch: seq<Event>, o: OfferId)
    requires Resolved(h, o) && FreshOffers(h, batch)
    ensures Resolved(Extend(h, batch), o) && Advertised(Extend(h, batch), o) == Advertised(h, o)
  {
    if batch != [] {
      StaysResolved(h, batch[..|batch| - 1], o);
      ResolvedStays(Extend(h, batch[..|batch| - 1]), batch[|batch| - 1], o);
    }
  }

  lemma PreparedRight(w: World, n: SeatName, ty: SelectionType, st: Settings, env: Env, written: Content)
    requires WorldOk(w, st, written) && EnvOk(env) && Ripe(w, n, ty) && AllRightlyAsked(w, st)
    ensures AllRightlyAsked(Prepare(w, n, ty, st, env).0, st)
  {
    var w' := Prepare(w, n, ty, st, env).0;
    if IsReading(w, n, ty) {
      var s := At(w, n, ty).value;
      assert SelectionOk(w.history, w.out, w.faults, n, ty, s, st, written);
      var todo := env.typeOrder(s.unique);
      assert Lists(todo, s.unique);
      var c := CreatePipes(todo, OpenFor(env, n, ty), st);
      CreatePipesOk(todo, OpenFor(env, n, ty), st);
      PrepareReadingOut(w, n, ty, st, env, c);
      forall r | r in w'.out && r.Receive? ensures RightlyAsked(w'.history, r, st) {
        if r !in w.out {
          MadeForType(s.offer, c.pipes, r);
          assert r.mime in Elements(todo);
        }
      }
    }
  }

  lemma MadeForType(o: OfferId, pipes: seq<PipeRecord>, r: Request)
    requires r in Receives(o, pipes)
    ensures r.Receive? && r.offer == o && exists i :: 0 <= i < |pipes| && pipes[i].mime == r.mime
  {
    var i :| 0 <= i < |pipes| && Receives(o, pipes)[i] == r;
    assert pipes[i].mime == r.mime;
  }

  lemma {:induction false} PreparedAllRight(w: World, slots: seq<Slot>, st: Settings, env: Env, written: Content)
    requires WorldOk(w, st, written) && EnvOk(env) && NoDuplicates(slots) && AllRightlyAsked(w, st)
    requires forall n, ty :: Ripe(w, n, ty)
    ensures AllRightlyAsked(PrepareAll(w, slots, st, env).0, st)
  {
    if slots != [] {
      var front, last := slots[..|slots| - 1], slots[|slots| - 1];
      assert slots == front + [last];
      PreparedAllRight(w, front, st, env, written);
      PrepareAllOk(w, front, st, env, written);
      assert last !in front && last == Slot(last.seat, last.ty);
      PreparedRight(PrepareAll(w, front, st, env).0, last.seat, last.ty, st, env, written);
    }
  }

  lemma TurnRight(w: World, st: Settings, env: Env, written: Content)
    requires WorldOk(w, st, written) && EnvOk(env) && AllRightlyAsked(w, st)
    requires forall n, ty :: Ripe(w, n, ty)
    ensures AllRightlyAsked(TakeTurn(w, st, env).world, st)
  {
    var ns := env.order(w.seats.Keys);
    assert Lists(ns, w.seats.Keys);
    SlotsList(ns);
    PreparedAllRight(w, Slots(ns), st, env, written);
    PrepareAllOk(w, Slots(ns), st, env, written);
    var (w1, awaiting) := PrepareAll(w, Slots(ns), st, env);
    if awaiting == [] {
      EndRight(w1, Slots(env.order(w1.seats.Keys)), st, written);
    } else {
      var w2 := Emit(ClearFlags(w1), [Sync]);
      assert w2.out[|w1.out|..] == [Sync];
      QuietlyRight(w1, w2, st);
    }
  }

  lemma {:induction false} PublishingKeepsHistory(w: World, slots: seq<Slot>)
    ensures PublishAll(w, slots).history == w.history
  {
    if slots != [] {
      PublishingKeepsHistory(w, slots[..|slots| - 1]);
    }
  }

  lemma EndRight(w: World, slots: seq<Slot>, st: Settings, written: Content)
    requires AllRightlyAsked(w, st)
    ensures AllRightlyAsked(PublishAll(w, slots), st)
  {
    PublishingAsksNothing(w, slots);
    PublishingKeepsHistory(w, slots);
    QuietlyRight(w, PublishAll(w, slots), st);
  }

  lemma AnswerRight(w1: World, awaiting: seq<Awaiting>, st: Settings, env: Env, written: Content)
    requires WorldOk(w1, st, written) && RoundOk(w1, awaiting, st, written) && EnvOk(env) && AllRightlyAsked(w1, st)
    requires ResolveAll(w1, awaiting).Continues?
    ensures var w2 := ResolveAll(w1, awaiting).world;
            if AnyFlag(w1) then AllRightlyAsked(TakeTurn(w2, st, env).world, st)
            else AllRightlyAsked(PublishAll(w2, Slots(env.order(w2.seats.Keys))), st)
  {
    ResolveAllOk(w1, awaiting, st, written);
    ResolvingAsksNothing(w1, awaiting);
    var w2 := ResolveAll(w1, awaiting).world;
    QuietlyRight(w1, w2, st);
    if AnyFlag(w1) {
      forall n, ty ensures Ripe(w2, n, ty) {
        assert RoundSlotOk(w1, awaiting, n, ty);
      }
      TurnRight(w2, st, env, written);
    } else {
      EndRight(w2, Slots(env.order(w2.seats.Keys)), st, written);
    }
  }

  lemma PipeRight(c: Client, a: Action, st: Settings, written: Content)
    requires ClientOk(c, st, written) && Legal(c, a, written) && a.PipeReady? && AllRightlyAsked(c.world, st)
    ensures AllRightlyAsked(Apply(c, a, st).world, st)
  {
    DeliverOk(c.world, a.seat, a.ty, a.pipe, a.delivery, st, written);
    DeliverSends(c.world, a.seat, a.ty, a.pipe, a.delivery, st);
    NothingOnOffers(Apply(c, a, st).world.out[|c.world.out|..]);
    QuietlyRight(c.world, Apply(c, a, st).world, st);
  }

  lemma StepRight(c: Client, a: Action, st: Settings, written: Content)
    requires ClientOk(c, st, written) && Legal(c, a, written) && AllRightlyAsked(c.world, st)
    ensures AllRightlyAsked(Apply(c, a, st).world, st)
  {
    if a.PipeReady? {
      PipeRight(c, a, st, written);
    } else {
      var awaiting := if c.phase.InRoundtrip? then c.phase.awaiting else [];
      assert RoundOk(c.world, awaiting, st, written);
      DispatchAllOk(c.world, a.batch, awaiting, st, a.env, written);
      DispatchAllHistory(c.world, a.batch, st, a.env);
      DispatchingAsksNothing(c.world, a.batch, st, a.env);
      var w1 := DispatchAll(c.world, a.batch, st, a.env);
      LaterRight(c.world, w1, a.batch, st);
      if !w1.managerRemoved {
        if a.Events? {
          forall n, ty ensures Ripe(w1, n, ty) {
            assert RoundSlotOk(w1, [], n, ty);
          }
          TurnRight(w1, st, a.env, written);
        } else if ResolveAll(w1, awaiting).Continues? {
          AnswerRight(w1, awaiting, st, a.env, written);
        }
      }
    }
  }

  /** Over every run, data are asked for only of offers that advertise something, whose names are within the
      limit and whose types all match the expression; only for types that they advertise; and never for the
      type "SAVE_TARGETS" unless the settings want it requested. */
  lemma {:induction false} OnlyWelcomeTypesAreAsked(actions: seq<Action>, st: Settings, written: Content)
    requires LegalRun(actions, st, written)
    ensures AllRightlyAsked(Run(actions, st).world, st)
    ensures !st.requestIgnored ==>
              forall r :: r in Run(actions, st).world.out && r.Receive? ==> r.mime != "SAVE_TARGETS"
  {
    if actions != [] {
      var front, a := actions[..|actions| - 1], actions[|actions| - 1];
      OnlyWelcomeTypesAreAsked(front, st, written);
      RunsAreOk(front, st, written);
      StepRight(Run(front, st), a, st, written);
    }
    var w := Run(actions, st).world;
    forall r | r in w.out && r.Receive? && !st.requestIgnored ensures r.mime != "SAVE_TARGETS" {
      assert RightlyAsked(w.history, r, st);
    }
  }
}
