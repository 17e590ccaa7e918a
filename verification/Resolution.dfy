/** The resolution loop keeps the invariant of the client, attaches pipes only to the offer they were
    created for, and panics exactly when a seat with pipes was announced anew. */
module Resolution {
  import opened Protocol
  import opened PipeReader
  import opened History
  import opened ClientSpec
  import opened ClientInvariant

  // ----- steps that change one selection -----

  /** Nothing but the selection of one slot changes; faults are only noted for its own offer. */
  ghost predicate OnlySlot(w: World, w': World, n: SeatName, ty: SelectionType) {
    && w'.history == w.history && w.out <= w'.out && w'.seats.Keys == w.seats.Keys
    && (forall m :: m in w.seats ==> w'.seats[m].offers == w.seats[m].offers && w'.seats[m].gotNew == w.seats[m].gotNew)
    && (forall m, tz :: m != n || tz != ty ==> At(w', m, tz) == At(w, m, tz))
    && (At(w', n, ty).Some? <==> At(w, n, ty).Some?)
    && (Active(At(w', n, ty)) ==> Active(At(w, n, ty)))
    && w.faults <= w'.faults
    && (forall f :: f in w'.faults && f !in w.faults ==> Active(At(w, n, ty)) && Origin(w.history, n, ty) == Some(f.0))
  }

  lemma OtherFaultsSame(w: World, w': World, n: SeatName, ty: SelectionType, m: SeatName, tz: SelectionType)
    requires OnlySlot(w, w', n, ty) && Exclusive(w) && (m != n || tz != ty) && Active(At(w, m, tz))
    requires Origin(w.history, m, tz).Some?
    ensures FaultyOf(w'.faults, Origin(w.history, m, tz).value) == FaultyOf(w.faults, Origin(w.history, m, tz).value)
  {
  }

  lemma OnlySlotOk(w: World, w': World, n: SeatName, ty: SelectionType, st: Settings, written: Content)
    requires WorldOk(w, st, written) && OnlySlot(w, w', n, ty)
    requires Active(At(w', n, ty)) ==>
               SelectionOk(w'.history, w'.out, w'.faults, n, ty, At(w', n, ty).value, st, written)
    requires PublicationsOk(w', st, written)
    ensures WorldOk(w', st, written)
  {
    forall m ensures SeatOk(w', m, st) {
      assert SeatOk(w, m, st);
    }
    forall m, tz | Active(At(w', m, tz))
      ensures SelectionOk(w'.history, w'.out, w'.faults, m, tz, At(w', m, tz).value, st, written)
    {
      if m != n || tz != ty {
        assert SelectionOk(w.history, w.out, w.faults, m, tz, At(w, m, tz).value, st, written);
        OtherFaultsSame(w, w', n, ty, m, tz);
      }
    }
    forall f | f in w'.faults ensures Resolved(w'.history, f.0) {
      if f !in w.faults {
        assert SelectionOk(w.history, w.out, w.faults, n, ty, At(w, n, ty).value, st, written);
      }
    }
    assert Exclusive(w') by {
      forall m, tz, k, tk | Active(At(w', m, tz)) && Active(At(w', k, tk)) && (m != k || tz != tk)
        ensures Origin(w'.history, m, tz) != Origin(w'.history, k, tk)
      {
        assert Active(At(w, m, tz)) && Active(At(w, k, tk));
      }
    }
  }

  // ----- creating pipes -----

  ghost predicate CreatedOk(c: Created, todo: seq<Mime>, st: Settings) {
    && Untouched(c.pipes) && DistinctTypes(c.pipes)
    && (forall i :: 0 <= i < |c.pipes| ==>
          c.pipes[i].mime in todo && !st.Skips(c.pipes[i].mime) && c.pipes[i].mime !in c.faulty)
    && (forall m :: m in c.faulty ==> m in todo && !st.Skips(m))
    && (!c.error ==> forall m :: m in Wanted(todo, c.faulty, st) ==>
                       exists i :: 0 <= i < |c.pipes| && c.pipes[i].mime == m)
    && (st.ignoreOnError ==> (c.error <==> c.faulty != {}))
    && (!st.ignoreOnError ==> !c.error)
  }

  lemma CreatedOpened(m: Mime, fd: Fd, rest: seq<Mime>, d: Created, st: Settings)
    requires CreatedOk(d, rest, st) && m !in rest && !st.Skips(m)
    ensures CreatedOk(d.(pipes := [PipeRecord(m, fd, Unset, false)] + d.pipes), [m] + rest, st)
  {
    var c := d.(pipes := [PipeRecord(m, fd, Unset, false)] + d.pipes);
    assert c.pipes[0].mime == m;
    forall x | !c.error && x in Wanted([m] + rest, c.faulty, st)
      ensures exists i :: 0 <= i < |c.pipes| && c.pipes[i].mime == x
    {
      if x != m {
        assert x in Wanted(rest, d.faulty, st);
        var i :| 0 <= i < |d.pipes| && d.pipes[i].mime == x;
        assert c.pipes[i + 1].mime == x;
      }
    }
  }

  lemma CreatedFaulty(m: Mime, rest: seq<Mime>, d: Created, st: Settings)
    requires CreatedOk(d, rest, st) && m !in rest
    ensures !st.Skips(m) && !st.ignoreOnError ==> CreatedOk(d.(faulty := d.faulty + {m}), [m] + rest, st)
    ensures st.Skips(m) ==> CreatedOk(d, [m] + rest, st)
  {
    assert forall x, faulty :: x in Wanted([m] + rest, faulty, st) && (st.Skips(m) || m in faulty) ==> x in rest;
    if !st.Skips(m) {
      assert Wanted([m] + rest, d.faulty + {m}, st) <= Wanted(rest, d.faulty, st);
    } else {
      assert Wanted([m] + rest, d.faulty, st) <= Wanted(rest, d.faulty, st);
    }
  }

  /** One untouched pipe for each requested type that is neither skipped nor faulty. */
  lemma {:induction false} CreatePipesOk(todo: seq<Mime>, open: Mime -> PipeOutcome, st: Settings)
    requires NoDuplicates(todo)
    ensures CreatedOk(CreatePipes(todo, open, st), todo, st)
  {
    if todo != [] {
      var m, rest := todo[0], todo[1..];
      assert todo == [m] + rest;
      assert m !in rest;
      CreatePipesOk(rest, open, st);
      var d := CreatePipes(rest, open, st);
      if !st.Skips(m) && open(m).Opened? {
        CreatedOpened(m, open(m).fd, rest, d, st);
      } else {
        CreatedFaulty(m, rest, d, st);
      }
    }
  }

  /** The pipes are those that could be opened, and the faulty types those that could not. */
  lemma {:induction false} CreatePipesOutcomes(todo: seq<Mime>, open: Mime -> PipeOutcome, st: Settings)
    ensures forall m :: m in CreatePipes(todo, open, st).faulty ==> !open(m).Opened?
    ensures forall p :: p in CreatePipes(todo, open, st).pipes ==> open(p.mime) == Opened(p.fd)
  {
    if todo != [] {
      CreatePipesOutcomes(todo[1..], open, st);
    }
  }

  /** A type that pipes are made for. */
  predicate IsRequested(m: Mime, st: Settings) {
    st.requestIgnored || m != "SAVE_TARGETS"
  }

  /** A pipe made for the type at position `k` of the list. */
  predicate MadeFor(p: PipeRecord, todo: seq<Mime>, k: nat, open: Mime -> PipeOutcome, st: Settings) {
    k < |todo| && IsRequested(todo[k], st) && p.mime == todo[k] && open(todo[k]) == Opened(p.fd)
  }

  predicate Increasing(at: seq<nat>) {
    forall i, j :: 0 <= i < j < |at| ==> at[i] < at[j]
  }

  /** The pipes, in terms of the list of types: made for those of the first `cut` types, at the positions `at`,
      that are requested and could be opened, in the order of the list. */
  ghost predicate MadeInOrder(c: Created, todo: seq<Mime>, open: Mime -> PipeOutcome, st: Settings, cut: nat,
                              at: seq<nat>) {
    && cut <= |todo| && |at| == |c.pipes| && Increasing(at)
    && AllMadeFor(c.pipes, todo, at, cut, open, st)
    && (forall k :: 0 <= k < cut && IsRequested(todo[k], st) && open(todo[k]).Opened? ==> k in at)
  }

  /** Where the loop over the types is left: at the first failure if that makes the whole offer be ignored, and
      at the end of the list otherwise. */
  ghost predicate CutRightly(c: Created, todo: seq<Mime>, open: Mime -> PipeOutcome, st: Settings, cut: nat) {
    && cut <= |todo|
    && (c.error <==> cut < |todo|)
    && (c.error ==> st.ignoreOnError && IsRequested(todo[cut], st) && !open(todo[cut]).Opened?)
    && (st.ignoreOnError ==> forall k :: 0 <= k < cut && IsRequested(todo[k], st) ==> open(todo[k]).Opened?)
  }

  lemma ShiftedIncreasing(at: seq<nat>)
    requires Increasing(at)
    ensures Increasing(Shifted(at)) && Increasing([0] + Shifted(at))
  {
  }

  lemma NoneForgotten(m: Mime, rest: seq<Mime>, open: Mime -> PipeOutcome, st: Settings, cut: nat, at: seq<nat>,
                      front: seq<nat>, k: nat)
    requires cut <= |rest|
    requires forall j :: 0 <= j < cut && IsRequested(rest[j], st) && open(rest[j]).Opened? ==> j in at
    requires IsRequested(m, st) && open(m).Opened? ==> front == [0]
    requires k < cut + 1 && IsRequested(([m] + rest)[k], st) && open(([m] + rest)[k]).Opened?
    ensures k in front + Shifted(at)
  {
    if k > 0 {
      assert rest[k - 1] == ([m] + rest)[k];
      ShiftedIn(at);
      assert k - 1 + 1 in Shifted(at);
    }
  }

  ghost predicate AllMadeFor(pipes: seq<PipeRecord>, todo: seq<Mime>, at: seq<nat>, cut: nat,
                             open: Mime -> PipeOutcome, st: Settings)
    requires |at| == |pipes|
  {
    forall i :: 0 <= i < |at| ==> at[i] < cut && MadeFor(pipes[i], todo, at[i], open, st)
  }

  lemma LaterInFront(m: Mime, rest: seq<Mime>, pipes: seq<PipeRecord>, at: seq<nat>, cut: nat,
                     open: Mime -> PipeOutcome, st: Settings)
    requires |at| == |pipes| && AllMadeFor(pipes, rest, at, cut, open, st)
    ensures AllMadeFor(pipes, [m] + rest, Shifted(at), cut + 1, open, st)
  {
    forall i | 0 <= i < |at| ensures MadeFor(pipes[i], [m] + rest, at[i] + 1, open, st) {
      assert MadeFor(pipes[i], rest, at[i], open, st);
    }
  }

  /** The same for a list with one more type in front. */
  lemma InFront(m: Mime, rest: seq<Mime>, d: Created, c: Created, open: Mime -> PipeOutcome, st: Settings, cut: nat,
                at: seq<nat>, front: seq<nat>)
    requires MadeInOrder(d, rest, open, st, cut, at)
    requires if IsRequested(m, st) && open(m).Opened? then
               front == [0] && c.pipes == [PipeRecord(m, open(m).fd, Unset, false)] + d.pipes
             else
               front == [] && c.pipes == d.pipes
    ensures MadeInOrder(c, [m] + rest, open, st, cut + 1, front + Shifted(at))
  {
    var at' := front + Shifted(at);
    assert Increasing(at') by {
      ShiftedIncreasing(at);
      assert front == [] ==> at' == Shifted(at);
    }
    LaterInFront(m, rest, d.pipes, at, cut, open, st);
    assert AllMadeFor(c.pipes, [m] + rest, at', cut + 1, open, st) by {
      if front == [] {
        assert at' == Shifted(at);
      } else {
        assert MadeFor(c.pipes[0], [m] + rest, 0, open, st);
      }
    }
    forall k | 0 <= k < cut + 1 && IsRequested(([m] + rest)[k], st) && open(([m] + rest)[k]).Opened?
      ensures k in at'
    {
      NoneForgotten(m, rest, open, st, cut, at, front, k);
    }
  }

  lemma CutInFront(m: Mime, rest: seq<Mime>, d: Created, c: Created, open: Mime -> PipeOutcome, st: Settings, cut: nat)
    requires CutRightly(d, rest, open, st, cut) && c.error == d.error
    requires st.ignoreOnError && IsRequested(m, st) ==> open(m).Opened?
    ensures CutRightly(c, [m] + rest, open, st, cut + 1)
  {
    forall k | 0 <= k < cut + 1 && st.ignoreOnError && IsRequested(([m] + rest)[k], st)
      ensures open(([m] + rest)[k]).Opened?
    {
      if k > 0 {
        assert ([m] + rest)[k] == rest[k - 1];
      }
    }
  }

  /** Exactly which pipes are made, in which order, and where the loop stops. */
  lemma {:induction false} CreatePipesInOrder(todo: seq<Mime>, open: Mime -> PipeOutcome, st: Settings)
    returns (cut: nat, at: seq<nat>)
    ensures MadeInOrder(CreatePipes(todo, open, st), todo, open, st, cut, at)
    ensures CutRightly(CreatePipes(todo, open, st), todo, open, st, cut)
  {
    cut, at := 0, [];
    if todo != [] {
      var m, rest := todo[0], todo[1..];
      var c, d := CreatePipes(todo, open, st), CreatePipes(rest, open, st);
      if !(IsRequested(m, st) && !open(m).Opened? && st.ignoreOnError) {
        var front := if IsRequested(m, st) && open(m).Opened? then [0] else [];
        cut, at := CreatePipesInOrder(rest, open, st);
        InFront(m, rest, d, c, open, st, cut, at, front);
        CutInFront(m, rest, d, c, open, st, cut);
        assert todo == [m] + rest;
        cut, at := cut + 1, front + Shifted(at);
      }
    }
  }

  function Shifted(at: seq<nat>): seq<nat> {
    seq(|at|, i requires 0 <= i < |at| => at[i] + 1)
  }

  lemma ShiftedIn(at: seq<nat>)
    ensures forall k: nat :: k in at ==> k + 1 in Shifted(at)
  {
    forall k: nat | k in at ensures k + 1 in Shifted(at) {
      var i :| 0 <= i < |at| && at[i] == k;
      assert Shifted(at)[i] == k + 1;
    }
  }

  // ----- before the roundtrip -----

  /** Not yet looked at by the loop: nothing was taken from it and nothing has gone wrong. */
  ghost predicate Ripe(w: World, n: SeatName, ty: SelectionType) {
    var s := At(w, n, ty);
    s.Some? && s.value.ReadMimes? ==>
      s.value.unique == Elements(s.value.ordered) && FaultyOf(w.faults, s.value.offer) == {}
      && s.value.fds == map[]
  }

  /** Nothing to do for the loop. */
  predicate Settled(w: World, n: SeatName, ty: SelectionType) {
    var s := At(w, n, ty);
    s.Some? ==> s.value.Waiting? || s.value.GotPipes? || s.value.GotData?
  }

  predicate IsReading(w: World, n: SeatName, ty: SelectionType) {
    var s := At(w, n, ty);
    s.Some? && s.value.ReadMimes?
  }

  predicate Marks(fds: map<Fd, bool>, pipes: seq<PipeRecord>) {
    forall p :: p in pipes ==> p.fd in fds
  }

  /** The pipes fit the selection they wait for: they were created for its offer. */
  ghost predicate Fits(w: World, a: Awaiting, st: Settings, written: Content) {
    && IsReading(w, a.seat, a.ty)
    && var s := At(w, a.seat, a.ty).value;
       && Untouched(a.pipes)
       && PipesOk(a.pipes, s.offer, s.ordered, w.out, FaultyOf(w.faults, s.offer), st, written)
       && Marks(s.fds, a.pipes)
  }

  predicate Covered(awaiting: seq<Awaiting>, n: SeatName, ty: SelectionType) {
    exists a :: a in awaiting && a.seat == n && a.ty == ty
  }

  predicate DistinctSlots(awaiting: seq<Awaiting>) {
    forall i, j :: 0 <= i < j < |awaiting| ==> awaiting[i].seat != awaiting[j].seat || awaiting[i].ty != awaiting[j].ty
  }

  lemma PutOnly(w: World, n: SeatName, ty: SelectionType, s: Selection)
    requires At(w, n, ty).Some? && (Active(Some(s)) ==> Active(At(w, n, ty)))
    ensures OnlySlot(w, Put(w, n, ty, s), n, ty) && At(Put(w, n, ty, s), n, ty) == Some(s)
  {
  }

  lemma SwitchOnly(w: World, n: SeatName, ty: SelectionType, s: Selection)
    requires At(w, n, ty).Some? && (Active(Some(s)) ==> Active(At(w, n, ty)))
    ensures OnlySlot(w, Switch(w, n, ty, s), n, ty) && At(Switch(w, n, ty, s), n, ty) == Some(s)
    ensures OnlySlot(w, Put(w, n, ty, s), n, ty) && At(Put(w, n, ty, s), n, ty) == Some(s)
  {
    PutOnly(w, n, ty, s);
    PutOnly(Emit(w, Teardown(At(w, n, ty))), n, ty, s);
  }

  lemma {:induction false} UnmarkedKeys(pipes: seq<PipeRecord>)
    ensures Marks(Unmarked(pipes), pipes)
    ensures forall fd :: fd in Unmarked(pipes) ==> !Unmarked(pipes)[fd] && exists p :: p in pipes && p.fd == fd
  {
    if pipes != [] {
      UnmarkedKeys(pipes[..|pipes| - 1]);
      assert pipes == pipes[..|pipes| - 1] + [pipes[|pipes| - 1]];
    }
  }

  /** The pipes that were created fit the offer, once their requests are out. */
  lemma CreatedPipesOk(c: Created, todo: seq<Mime>, o: OfferId, ordered: seq<Mime>, out: seq<Request>, st: Settings,
                       written: Content)
    requires CreatedOk(c, todo, st) && !c.error && c.pipes != []
    requires forall m :: m in todo <==> m in ordered
    ensures PipesOk(c.pipes, o, ordered, out + Receives(o, c.pipes), c.faulty, st, written)
  {
    forall i | 0 <= i < |c.pipes|
      ensures PipeOk(c.pipes[i], o, ordered, out + Receives(o, c.pipes), c.faulty, st, written)
    {
      assert Receives(o, c.pipes)[i] == Receive(o, c.pipes[i].mime, c.pipes[i].fd);
      assert Receives(o, c.pipes)[i] in out + Receives(o, c.pipes);
    }
    assert Wanted(ordered, c.faulty, st) == Wanted(todo, c.faulty, st);
  }

  lemma NotedAndAsked(w: World, w1: World, n: SeatName, ty: SelectionType, o: OfferId, c: Created)
    requires IsReading(w, n, ty) && FaultyOf(w.faults, o) == {} && Origin(w.history, n, ty) == Some(o)
    requires w1 == Emit(NoteFaults(w, o, c.faulty), Receives(o, c.pipes))
    ensures OnlySlot(w, w1, n, ty) && At(w1, n, ty) == At(w, n, ty) && w1.published == w.published
    ensures FaultyOf(w1.faults, o) == c.faulty && w1.out == w.out + Receives(o, c.pipes)
  {
    FaultsAdded(w.faults, o, c.faulty);
  }

  /** The step of `Prepare` for a selection that is being read, spelled out. */
  lemma PrepareReading(w: World, n: SeatName, ty: SelectionType, st: Settings, env: Env, todo: seq<Mime>, c: Created)
    requires IsReading(w, n, ty) && FaultyOf(w.faults, At(w, n, ty).value.offer) == {}
    requires todo == env.typeOrder(At(w, n, ty).value.unique)
    requires c == CreatePipes(todo, OpenFor(env, n, ty), st)
    requires Origin(w.history, n, ty) == Some(At(w, n, ty).value.offer)
    ensures var (w', xs) := Prepare(w, n, ty, st, env);
            var s := At(w, n, ty).value;
            && OnlySlot(w, w', n, ty) && w'.published == w.published
            && FaultyOf(w'.faults, s.offer) == c.faulty
            && if c.error || c.pipes == [] then xs == [] && At(w', n, ty) == Some(Waiting)
               else && xs == [Awaiting(n, ty, c.pipes)]
                    && w'.out == w.out + Receives(s.offer, c.pipes)
                    && At(w', n, ty) == Some(s.(unique := {}, fds := s.fds + Unmarked(c.pipes)))
  {
    var s := At(w, n, ty).value;
    var w1 := Emit(NoteFaults(w, s.offer, c.faulty), Receives(s.offer, c.pipes));
    NotedAndAsked(w, w1, n, ty, s.offer, c);
    SwitchOnly(w1, n, ty, Waiting);
    SwitchOnly(w1, n, ty, s.(unique := {}, fds := s.fds + Unmarked(c.pipes)));
    var (w', xs) := Prepare(w, n, ty, st, env);
    if c.error || c.pipes == [] {
      assert w' == Switch(w1, n, ty, Waiting);
    } else {
      assert w' == Put(w1, n, ty, s.(unique := {}, fds := s.fds + Unmarked(c.pipes)));
    }
  }

  lemma PrepareReadingOk(w: World, n: SeatName, ty: SelectionType, st: Settings, env: Env, written: Content)
    requires WorldOk(w, st, written) && EnvOk(env) && Ripe(w, n, ty) && IsReading(w, n, ty)
    ensures var (w', xs) := Prepare(w, n, ty, st, env);
            && OnlySlot(w, w', n, ty)
            && WorldOk(w', st, written)
            && w'.published == w.published
            && (xs == [] ==> Settled(w', n, ty))
            && (xs != [] ==> |xs| == 1 && xs[0].seat == n && xs[0].ty == ty && Fits(w', xs[0], st, written))
  {
    var s := At(w, n, ty).value;
    assert SelectionOk(w.history, w.out, w.faults, n, ty, s, st, written);
    var todo := env.typeOrder(s.unique);
    assert Lists(todo, s.unique);
    assert forall m :: m in todo <==> m in Elements(todo);
    assert forall m :: m in s.ordered <==> m in Elements(s.ordered);
    var open := OpenFor(env, n, ty);
    var c := CreatePipes(todo, open, st);
    CreatePipesOk(todo, open, st);
    PrepareReading(w, n, ty, st, env, todo, c);
    var (w', xs) := Prepare(w, n, ty, st, env);
    if xs != [] {
      CreatedPipesOk(c, todo, s.offer, s.ordered, w.out, st, written);
      UnmarkedKeys(c.pipes);
    }
    OnlySlotOk(w, w', n, ty, st, written);
  }

  lemma FaultsAdded(faults: set<(OfferId, Mime)>, o: OfferId, ms: set<Mime>)
    requires FaultyOf(faults, o) == {}
    ensures FaultyOf(faults + set m | m in ms :: (o, m), o) == ms
  {
    var all := faults + set m | m in ms :: (o, m);
    forall m | m in FaultyOf(all, o) ensures m in ms {
      var f :| f in all && f.0 == o && f.1 == m;
      assert f in faults ==> m in FaultyOf(faults, o);
    }
    forall m | m in ms ensures m in FaultyOf(all, o) {
      assert (o, m) in all;
    }
  }

  lemma PrepareOk(w: World, n: SeatName, ty: SelectionType, st: Settings, env: Env, written: Content)
    requires WorldOk(w, st, written) && EnvOk(env) && Ripe(w, n, ty)
    ensures var (w', xs) := Prepare(w, n, ty, st, env);
            && OnlySlot(w, w', n, ty)
            && WorldOk(w', st, written)
            && w'.published == w.published
            && (xs == [] ==> Settled(w', n, ty))
            && (xs != [] ==> |xs| == 1 && xs[0].seat == n && xs[0].ty == ty && Fits(w', xs[0], st, written))
  {
    if IsReading(w, n, ty) {
      PrepareReadingOk(w, n, ty, st, env, written);
    } else if !Settled(w, n, ty) {
      SwitchOnly(w, n, ty, Waiting);
      OnlySlotOk(w, Switch(w, n, ty, Waiting), n, ty, st, written);
    }
  }

  /** Work on one slot leaves the others as they were. */
  lemma FrameSlot(w: World, w': World, n: SeatName, ty: SelectionType, m: SeatName, tz: SelectionType,
                  st: Settings, written: Content)
    requires WorldOk(w, st, written) && OnlySlot(w, w', n, ty) && (m != n || tz != ty)
    ensures Ripe(w, m, tz) ==> Ripe(w', m, tz)
    ensures Settled(w, m, tz) ==> Settled(w', m, tz)
    ensures forall a: Awaiting :: a.seat == m && a.ty == tz && Fits(w, a, st, written) ==> Fits(w', a, st, written)
  {
    if IsReading(w, m, tz) {
      assert SelectionOk(w.history, w.out, w.faults, m, tz, At(w, m, tz).value, st, written);
      OtherFaultsSame(w, w', n, ty, m, tz);
    }
  }

  /** What the loop has done to the slots it has visited, before the roundtrip. */
  ghost predicate Prepared(w: World, slots: seq<Slot>, awaiting: seq<Awaiting>, st: Settings, written: Content) {
    && DistinctSlots(awaiting)
    && (forall a :: a in awaiting ==> Slot(a.seat, a.ty) in slots && Fits(w, a, st, written))
    && (forall n, ty :: Slot(n, ty) in slots ==> Settled(w, n, ty) || Covered(awaiting, n, ty))
    && (forall n, ty :: Slot(n, ty) !in slots ==> Ripe(w, n, ty))
  }

  /** The parts of the world that the loop does not touch. */
  ghost predicate SameTables(w: World, w': World) {
    && w'.history == w.history && w.out <= w'.out && w'.seats.Keys == w.seats.Keys
    && (forall m :: m in w.seats ==> w'.seats[m].offers == w.seats[m].offers && w'.seats[m].gotNew == w.seats[m].gotNew)
    && w'.published == w.published
  }

  lemma {:induction false} PrepareAllOk(w: World, slots: seq<Slot>, st: Settings, env: Env, written: Content)
    requires WorldOk(w, st, written) && EnvOk(env) && NoDuplicates(slots)
    requires forall n, ty :: Ripe(w, n, ty)
    ensures var (w', awaiting) := PrepareAll(w, slots, st, env);
            && WorldOk(w', st, written) && SameTables(w, w') && Prepared(w', slots, awaiting, st, written)
  {
    if slots != [] {
      var front, last := slots[..|slots| - 1], slots[|slots| - 1];
      assert slots == front + [last];
      PrepareAllOk(w, front, st, env, written);
      var (w1, xs) := PrepareAll(w, front, st, env);
      assert last !in front;
      PrepareOk(w1, last.seat, last.ty, st, env, written);
      PreparedStep(w1, front, last, xs, st, env, written);
    }
  }

  lemma PreparedStep(w: World, front: seq<Slot>, last: Slot, xs: seq<Awaiting>, st: Settings, env: Env,
                     written: Content)
    requires WorldOk(w, st, written) && EnvOk(env) && last !in front && Prepared(w, front, xs, st, written)
    requires var (w', ys) := Prepare(w, last.seat, last.ty, st, env);
             && OnlySlot(w, w', last.seat, last.ty)
             && (ys == [] ==> Settled(w', last.seat, last.ty))
             && (ys != [] ==>
                   |ys| == 1 && ys[0].seat == last.seat && ys[0].ty == last.ty && Fits(w', ys[0], st, written))
    ensures var (w', ys) := Prepare(w, last.seat, last.ty, st, env);
            Prepared(w', front + [last], xs + ys, st, written)
  {
    var (w', ys) := Prepare(w, last.seat, last.ty, st, env);
    forall a | a in xs + ys
      ensures Slot(a.seat, a.ty) in front + [last] && Fits(w', a, st, written)
    {
      if a in xs { FrameSlot(w, w', last.seat, last.ty, a.seat, a.ty, st, written); }
    }
    forall n, ty | Slot(n, ty) in front + [last]
      ensures Settled(w', n, ty) || Covered(xs + ys, n, ty)
    {
      if Slot(n, ty) in front {
        FrameSlot(w, w', last.seat, last.ty, n, ty, st, written);
        if Covered(xs, n, ty) {
          var a :| a in xs && a.seat == n && a.ty == ty;
          assert a in xs + ys;
        }
      } else if ys != [] {
        assert ys[0] in xs + ys;
      }
    }
    forall n, ty | Slot(n, ty) !in front + [last]
      ensures Ripe(w', n, ty)
    {
      FrameSlot(w, w', last.seat, last.ty, n, ty, st, written);
    }
    forall i, j | 0 <= i < j < |xs + ys|
      ensures (xs + ys)[i].seat != (xs + ys)[j].seat || (xs + ys)[i].ty != (xs + ys)[j].ty
    {
      if j == |xs| {
        assert xs[i] in xs && Slot(xs[i].seat, xs[i].ty) in front;
      }
    }
  }

  lemma {:induction false} SlotsMembers(ns: seq<SeatName>, n: SeatName, ty: SelectionType)
    ensures Slot(n, ty) in Slots(ns) <==> n in ns
  {
    if ns != [] {
      var front, last := ns[..|ns| - 1], ns[|ns| - 1];
      assert ns == front + [last];
      SlotsMembers(front, n, ty);
      var pair := [Slot(last, Regular), Slot(last, Primary)];
      assert Slot(n, ty) in pair <==> n == last by {
        assert pair[0] in pair && pair[1] in pair;
      }
    }
  }

  lemma {:induction false} SlotsList(ns: seq<SeatName>)
    requires NoDuplicates(ns)
    ensures NoDuplicates(Slots(ns))
    ensures forall n, ty :: Slot(n, ty) in Slots(ns) <==> n in ns
  {
    forall n, ty ensures Slot(n, ty) in Slots(ns) <==> n in ns {
      SlotsMembers(ns, n, ty);
    }
    if ns != [] {
      var front, last := ns[..|ns| - 1], ns[|ns| - 1];
      assert ns == front + [last];
      SlotsList(front);
      assert last !in front;
      forall i, j | 0 <= i < j < |Slots(ns)|
        ensures Slots(ns)[i] != Slots(ns)[j]
      {
        if i < |Slots(front)| {
          assert Slots(front)[i] in Slots(front);
          assert Slots(front)[i] == Slot(Slots(front)[i].seat, Slots(front)[i].ty);
        }
      }
    }
  }

  // ----- during the roundtrip -----

  /** What holds between the creation of pipes and the end of the roundtrip, whatever is dispatched
      meanwhile. As long as no new selection is flagged, the pipes still fit. */
  ghost predicate RoundOk(w: World, awaiting: seq<Awaiting>, st: Settings, written: Content) {
    && DistinctSlots(awaiting)
    && (forall a :: a in awaiting && IsReading(w, a.seat, a.ty) && !Flag(w, a.seat, a.ty) ==> Fits(w, a, st, written))
    && (forall n, ty :: RoundSlotOk(w, awaiting, n, ty))
  }

  ghost predicate RoundSlotOk(w: World, awaiting: seq<Awaiting>, n: SeatName, ty: SelectionType) {
    || Settled(w, n, ty)
    || (Flag(w, n, ty) && Ripe(w, n, ty))
    || (IsReading(w, n, ty) && Covered(awaiting, n, ty) && !Flag(w, n, ty))
  }

  /** An event that concerns the existence of a selection or starts it anew. */
  predicate Touches(e: Event, n: SeatName, ty: SelectionType) {
    AddsSeat(e, n) || RemovesSeat(e, n) || Selects(e, n, ty)
  }

  lemma SlotAfterSeatEvent(w: World, e: Event, n: SeatName, ty: SelectionType, st: Settings, env: Env)
    requires !Touches(e, n, ty) && (e.SeatAdded? || e.GlobalRemoved? || e.Finished?)
    ensures var w' := Dispatch(w, e, st, env);
            && At(w', n, ty) == At(w, n, ty) && Flag(w', n, ty) == Flag(w, n, ty) && (n in w'.seats <==> n in w.seats)
  {
  }

  lemma SlotAfterOtherSelection(w: World, e: Event, n: SeatName, ty: SelectionType, st: Settings, env: Env)
    requires !Touches(e, n, ty) && e.Selected?
    ensures var w' := Dispatch(w, e, st, env);
            && At(w', n, ty) == At(w, n, ty) && Flag(w', n, ty) == Flag(w, n, ty) && (n in w'.seats <==> n in w.seats)
  {
  }

  lemma SlotAfterSend(w: World, e: Event, n: SeatName, ty: SelectionType, st: Settings, env: Env)
    requires e.Send?
    ensures var w' := Dispatch(w, e, st, env);
            && SameButMarks(At(w, n, ty), At(w', n, ty)) && Flag(w', n, ty) == Flag(w, n, ty) &&
                 (n in w'.seats <==> n in w.seats)
  {
  }

  /** An event that leaves a slot alone. */
  lemma SlotUntouched(w: World, e: Event, n: SeatName, ty: SelectionType, st: Settings, env: Env)
    requires !Touches(e, n, ty)
    ensures var w' := Dispatch(w, e, st, env);
            && SameButMarks(At(w, n, ty), At(w', n, ty)) && Flag(w', n, ty) == Flag(w, n, ty)
            && (n in w'.seats <==> n in w.seats)
  {
    if e.Selected? {
      SlotAfterOtherSelection(w, e, n, ty, st, env);
    } else if e.Send? {
      SlotAfterSend(w, e, n, ty, st, env);
    } else if e.SeatAdded? || e.GlobalRemoved? || e.Finished? {
      SlotAfterSeatEvent(w, e, n, ty, st, env);
    }
  }

  lemma SlotOfChangedSeat(w: World, e: Event, n: SeatName, ty: SelectionType, st: Settings, env: Env)
    ensures var w' := Dispatch(w, e, st, env);
            && (AddsSeat(e, n) ==> n in w'.seats && !Flag(w', n, ty))
            && (AddsSeat(e, n) ==> At(w', n, ty) == if st.Enabled(ty) then Some(Waiting) else None)
            && (RemovesSeat(e, n) ==> n !in w'.seats)
  {
  }

  lemma SlotSelected(w: World, e: Event, n: SeatName, ty: SelectionType, st: Settings, env: Env)
    requires Selects(e, n, ty)
    ensures var w' := Dispatch(w, e, st, env);
            && (n in w'.seats <==> n in w.seats)
            && if At(w, n, ty).None? then At(w', n, ty).None? && Flag(w', n, ty) == Flag(w, n, ty)
               else Flag(w', n, ty) && At(w', n, ty) == Some(Named(w.seats[n], e.maybeOffer, st))
  {
  }

  /** What an event does to a slot. */
  lemma SlotEffect(w: World, e: Event, n: SeatName, ty: SelectionType, st: Settings, env: Env)
    ensures var w' := Dispatch(w, e, st, env);
            && (AddsSeat(e, n) ==> n in w'.seats && !Flag(w', n, ty))
            && (AddsSeat(e, n) ==> At(w', n, ty) == if st.Enabled(ty) then Some(Waiting) else None)
            && (RemovesSeat(e, n) ==> n !in w'.seats)
            && (Selects(e, n, ty) && At(w, n, ty).Some? ==>
                  Flag(w', n, ty) && At(w', n, ty) == Some(Named(w.seats[n], e.maybeOffer, st)))
            && (Selects(e, n, ty) && At(w, n, ty).None? ==> At(w', n, ty).None? && Flag(w', n, ty) == Flag(w, n, ty))
            && (!Touches(e, n, ty) ==>
                  SameButMarks(At(w, n, ty), At(w', n, ty)) && Flag(w', n, ty) == Flag(w, n, ty))
            && (!AddsSeat(e, n) && !RemovesSeat(e, n) ==> (n in w'.seats <==> n in w.seats))
  {
    SlotOfChangedSeat(w, e, n, ty, st, env);
    if Selects(e, n, ty) {
      SlotSelected(w, e, n, ty, st, env);
    } else if !Touches(e, n, ty) {
      SlotUntouched(w, e, n, ty, st, env);
    }
  }

  lemma SendMarksMore(w: World, e: Event, n: SeatName, ty: SelectionType, st: Settings, env: Env)
    requires e.Send? && IsReading(w, n, ty)
    ensures var w' := Dispatch(w, e, st, env);
            && IsReading(w', n, ty)
            && At(w', n, ty).value.fds.Keys == At(w, n, ty).value.fds.Keys
            && forall fd :: fd in At(w, n, ty).value.fds && At(w, n, ty).value.fds[fd] ==> At(w', n, ty).value.fds[fd]
  {
  }

  lemma OnlySendMarks(w: World, e: Event, n: SeatName, ty: SelectionType, st: Settings, env: Env)
    requires !Touches(e, n, ty) && !e.Send?
    ensures At(Dispatch(w, e, st, env), n, ty) == At(w, n, ty)
  {
    if e.Selected? {
      SlotAfterOtherSelection(w, e, n, ty, st, env);
    } else if e.SeatAdded? || e.GlobalRemoved? || e.Finished? {
      SlotAfterSeatEvent(w, e, n, ty, st, env);
    }
  }

  /** Marks are only ever set. */
  lemma MarksGrow(w: World, e: Event, n: SeatName, ty: SelectionType, st: Settings, env: Env)
    requires !Touches(e, n, ty) && IsReading(w, n, ty)
    ensures var w' := Dispatch(w, e, st, env);
            && IsReading(w', n, ty)
            && At(w', n, ty).value.fds.Keys == At(w, n, ty).value.fds.Keys
            && forall fd :: fd in At(w, n, ty).value.fds && At(w, n, ty).value.fds[fd] ==> At(w', n, ty).value.fds[fd]
  {
    if e.Send? {
      SendMarksMore(w, e, n, ty, st, env);
    } else {
      OnlySendMarks(w, e, n, ty, st, env);
    }
  }

  lemma NamedRipe(w: World, e: Event, st: Settings, env: Env, written: Content)
    requires WorldOk(w, st, written) && e.Selected? && e.seat in w.seats && FreshOffer(w.history, e)
    requires At(w, e.seat, e.ty).Some?
    ensures Ripe(Dispatch(w, e, st, env), e.seat, e.ty)
  {
    var w' := Dispatch(w, e, st, env);
    SelectedState(w, e, st, env);
    LedgersGrow(w, e, st, env);
    assert SeatOk(w, e.seat, st);
    if Named(w.seats[e.seat], e.maybeOffer, st).ReadMimes? {
      NamedOk(w.history, w.seats[e.seat], e, w'.out, w'.faults, st, written);
      assert FaultyOf(w.faults, e.maybeOffer.value) == {} by {
        forall f | f in w.faults ensures f.0 != e.maybeOffer.value {
          assert Resolved(w.history, f.0);
        }
      }
    }
  }

  lemma RoundSlotLater(w: World, awaiting: seq<Awaiting>, e: Event, n: SeatName, ty: SelectionType, st: Settings,
                       env: Env, written: Content)
    requires WorldOk(w, st, written) && FreshOffer(w.history, e)
    requires RoundSlotOk(w, awaiting, n, ty)
    ensures RoundSlotOk(Dispatch(w, e, st, env), awaiting, n, ty)
  {
    SlotEffect(w, e, n, ty, st, env);
    LedgersGrow(w, e, st, env);
    if Selects(e, n, ty) && At(w, n, ty).Some? {
      NamedRipe(w, e, st, env, written);
    } else if !Touches(e, n, ty) && Flag(w, n, ty) && Ripe(w, n, ty) {
      RipeLater(w, e, n, ty, st, env);
    }
  }

  /** Nothing is marked on a selection for which no pipe was requested yet. */
  lemma RipeLater(w: World, e: Event, n: SeatName, ty: SelectionType, st: Settings, env: Env)
    requires Ripe(w, n, ty) && !Touches(e, n, ty)
    ensures Ripe(Dispatch(w, e, st, env), n, ty)
  {
    SlotEffect(w, e, n, ty, st, env);
    LedgersGrow(w, e, st, env);
    if IsReading(w, n, ty) { MarksGrow(w, e, n, ty, st, env); }
  }

  lemma FitsLater(w: World, a: Awaiting, e: Event, st: Settings, env: Env, written: Content)
    requires Fits(w, a, st, written) && !Touches(e, a.seat, a.ty)
    ensures Fits(Dispatch(w, e, st, env), a, st, written)
  {
    SlotEffect(w, e, a.seat, a.ty, st, env);
    LedgersGrow(w, e, st, env);
    MarksGrow(w, e, a.seat, a.ty, st, env);
  }

  /** Dispatching keeps the promise of the round. */
  lemma RoundOkLater(w: World, w': World, awaiting: seq<Awaiting>, e: Event, st: Settings, env: Env, written: Content)
    requires WorldOk(w, st, written) && FreshOffer(w.history, e) && RoundOk(w, awaiting, st, written)
    requires w' == Dispatch(w, e, st, env)
    ensures RoundOk(w', awaiting, st, written)
  {
    forall n, ty ensures RoundSlotOk(w', awaiting, n, ty) {
      assert RoundSlotOk(w, awaiting, n, ty);
      RoundSlotLater(w, awaiting, e, n, ty, st, env, written);
    }
    forall a | a in awaiting && IsReading(w', a.seat, a.ty) && !Flag(w', a.seat, a.ty)
      ensures Fits(w', a, st, written)
    {
      SlotEffect(w, e, a.seat, a.ty, st, env);
      FitsLater(w, a, e, st, env, written);
    }
  }

  // ----- after the roundtrip -----

  lemma ResolveOk(w: World, a: Awaiting, st: Settings, written: Content)
    requires WorldOk(w, st, written)
    requires IsReading(w, a.seat, a.ty) && !Flag(w, a.seat, a.ty) ==> Fits(w, a, st, written)
    ensures match Resolve(w, a)
            case Panicked => a.seat in w.seats && !Flag(w, a.seat, a.ty) && !IsReading(w, a.seat, a.ty)
            case Continues(w') =>
              && OnlySlot(w, w', a.seat, a.ty) && WorldOk(w', st, written)
              && w'.published == w.published && w'.faults == w.faults
              && (!Flag(w, a.seat, a.ty) ==> Settled(w', a.seat, a.ty))
              && (Flag(w, a.seat, a.ty) ==> w' == w)
  {
    if IsReading(w, a.seat, a.ty) && !Flag(w, a.seat, a.ty) {
      var s := At(w, a.seat, a.ty).value;
      assert SelectionOk(w.history, w.out, w.faults, a.seat, a.ty, s, st, written);
      var w' := Resolve(w, a).world;
      var next := if AnyMarked(s.fds) then Waiting else GotPipes(s.ordered, Reader(a.pipes, s.bytesRead, 0, 0));
      SwitchOnly(w, a.seat, a.ty, next);
      if next.GotPipes? {
        UntouchedReaderOk(a.pipes, s.bytesRead, st);
      }
      OnlySlotOk(w, w', a.seat, a.ty, st, written);
    }
  }

  /** The slots of `done` are settled unless a new selection is flagged; the others are as before. */
  ghost predicate ResolvedUpTo(w: World, w': World, done: seq<Awaiting>) {
    && SameTables(w, w') && w'.faults == w.faults
    && (forall n, ty :: !Covered(done, n, ty) || Flag(w, n, ty) ==> At(w', n, ty) == At(w, n, ty))
    && (forall n, ty :: Covered(done, n, ty) && !Flag(w, n, ty) ==> Settled(w', n, ty))
  }

  lemma {:induction false} ResolveAllOk(w: World, awaiting: seq<Awaiting>, st: Settings, written: Content)
    requires WorldOk(w, st, written) && DistinctSlots(awaiting)
    requires forall a :: a in awaiting && IsReading(w, a.seat, a.ty) && !Flag(w, a.seat, a.ty) ==>
             Fits(w, a, st, written)
    ensures match ResolveAll(w, awaiting)
            case Panicked =>
              exists a :: a in awaiting && a.seat in w.seats && !Flag(w, a.seat, a.ty) && !IsReading(w, a.seat, a.ty)
            case Continues(w') =>
              && WorldOk(w', st, written) && ResolvedUpTo(w, w', awaiting)
              && forall a :: a in awaiting && a.seat in w.seats && !Flag(w, a.seat, a.ty) ==> IsReading(w, a.seat, a.ty)
  {
    if awaiting != [] {
      var front, a := awaiting[..|awaiting| - 1], awaiting[|awaiting| - 1];
      assert awaiting == front + [a];
      ResolveAllOk(w, front, st, written);
      if ResolveAll(w, front).Panicked? {
        var b :| b in front && b.seat in w.seats && !Flag(w, b.seat, b.ty) && !IsReading(w, b.seat, b.ty);
        assert b in awaiting;
      } else {
        var w1 := ResolveAll(w, front).world;
        assert !Covered(front, a.seat, a.ty);
        assert At(w1, a.seat, a.ty) == At(w, a.seat, a.ty);
        ResolveOk(w1, a, st, written);
        if Resolve(w1, a).Continues? {
          ResolvedStep(w, w1, front, a, st, written);
        }
      }
    }
  }

  lemma ResolvedStep(w: World, w1: World, front: seq<Awaiting>, a: Awaiting, st: Settings, written: Content)
    requires ResolvedUpTo(w, w1, front) && !Covered(front, a.seat, a.ty)
    requires Resolve(w1, a).Continues?
    requires var w2 := Resolve(w1, a).world;
             && OnlySlot(w1, w2, a.seat, a.ty) && w2.published == w1.published && w2.faults == w1.faults
             && (!Flag(w1, a.seat, a.ty) ==> Settled(w2, a.seat, a.ty))
             && (Flag(w1, a.seat, a.ty) ==> w2 == w1)
    ensures ResolvedUpTo(w, Resolve(w1, a).world, front + [a])
  {
    var w2 := Resolve(w1, a).world;
    forall n, ty
      ensures !Covered(front + [a], n, ty) || Flag(w, n, ty) ==> At(w2, n, ty) == At(w, n, ty)
      ensures Covered(front + [a], n, ty) && !Flag(w, n, ty) ==> Settled(w2, n, ty)
    {
      assert Covered(front + [a], n, ty) <==> Covered(front, n, ty) || (n == a.seat && ty == a.ty) by {
        if Covered(front, n, ty) {
          var b :| b in front && b.seat == n && b.ty == ty;
          assert b in front + [a];
        }
        assert a in front + [a];
      }
    }
  }

  // ----- the panic -----

  /** The batch leaves a freshly added seat `n` without a selection event of type `ty`: a seat was
      announced under that name, was not removed again, and nothing was selected on it since. */
  predicate AddedAnew(batch: seq<Event>, n: SeatName, ty: SelectionType) {
    batch != [] &&
    var e := batch[|batch| - 1];
    AddsSeat(e, n) || (!Touches(e, n, ty) && AddedAnew(batch[..|batch| - 1], n, ty))
  }

  /** How a slot that was being read, unflagged, comes out of a batch. */
  lemma {:induction false} ReadingSlotAfter(w: World, batch: seq<Event>, n: SeatName, ty: SelectionType,
                                            st: Settings, env: Env)
    requires IsReading(w, n, ty) && !Flag(w, n, ty) && st.Enabled(ty)
    ensures var w' := DispatchAll(w, batch, st, env);
            n in w'.seats && !Flag(w', n, ty) && !IsReading(w', n, ty) <==> AddedAnew(batch, n, ty)
    ensures var w' := DispatchAll(w, batch, st, env);
            && (n in w'.seats ==> At(w', n, ty).Some?)
            && (n in w'.seats && !Flag(w', n, ty) && IsReading(w', n, ty) ==>
                  SameButMarks(At(w, n, ty), At(w', n, ty)))
  {
    if batch != [] {
      var front, e := batch[..|batch| - 1], batch[|batch| - 1];
      ReadingSlotAfter(w, front, n, ty, st, env);
      SlotEffect(DispatchAll(w, front, st, env), e, n, ty, st, env);
    }
  }
}
