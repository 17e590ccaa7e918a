/** What an offer remembers of the MIME types advertised for it, and which offers are ignored. */
module MimeAccounting {
  import opened Protocol

  datatype Offer = Offer(
    ordered: seq<Mime>,
    unique: set<Mime>,
    bytesRead: nat,
    exceeded: bool
  )

  const NEW_OFFER := Offer([], {}, 0, false)

  /** One advertised MIME type. */
  function Advertise(o: Offer, m: Mime, st: Settings): Offer {
    if o.exceeded then o
    else if m in o.unique then o.(ordered := o.ordered + [m])
    else
      var bytes := o.bytesRead + |m|;
      if st.Exceeds(bytes) then o.(bytesRead := bytes, exceeded := true)
      else Offer(o.ordered + [m], o.unique + {m}, bytes, false)
  }

  /** The offer after a whole sequence of advertised MIME types. */
  function AdvertiseAll(ms: seq<Mime>, st: Settings): Offer {
    if ms == [] then NEW_OFFER
    else Advertise(AdvertiseAll(ms[..|ms| - 1], st), ms[|ms| - 1], st)
  }

  /** Whether a selection of this offer is left alone. */
  predicate ShouldIgnore(o: Offer, st: Settings) {
    || o.exceeded
    || o.unique == {}
    || (st.regex.Some? && exists m :: m in o.unique && !st.regex.value(m))
  }

  /** Summed length of the MIME types in a set: each type counts once. */
  ghost function NameBytes(s: set<Mime>): nat
    decreases |s|
  {
    if s == {} then 0
    else
      var m :| m in s;
      |m| + NameBytes(s - {m})
  }

  lemma {:induction false} NameBytesSplit(s: set<Mime>, m: Mime)
    requires m in s
    ensures NameBytes(s) == |m| + NameBytes(s - {m})
    decreases |s|
  {
    var picked :| picked in s && NameBytes(s) == |picked| + NameBytes(s - {picked});
    if picked != m {
      NameBytesSplit(s - {picked}, m);
      NameBytesSplit(s - {m}, picked);
      assert s - {picked} - {m} == s - {m} - {picked};
    }
  }

  lemma {:induction false} NameBytesMonotone(s: set<Mime>, t: set<Mime>)
    requires s <= t
    ensures NameBytes(s) <= NameBytes(t)
    decreases |t|
  {
    if s != t {
      var m :| m in t && m !in s;
      NameBytesSplit(t, m);
      NameBytesMonotone(s, t - {m});
    }
  }

  /** An offer that is taken up: it advertises something, its distinct names are within the limit, and all of
      its types match the regular expression if there is one. */
  ghost predicate Welcome(ms: seq<Mime>, st: Settings) {
    && ms != []
    && (st.limit.Some? ==> NameBytes(Elements(ms)) <= st.limit.value)
    && (st.regex.Some? ==> forall m :: m in ms ==> st.regex.value(m))
  }

  /** The accounting is exact: the flag is set just when the distinct names are too long together;
      otherwise nothing that was advertised is lost. Neither order nor repetition matters. */
  lemma {:induction false} AccountingIsExact(ms: seq<Mime>, st: Settings)
    ensures AdvertiseAll(ms, st).exceeded <==> st.limit.Some? && NameBytes(Elements(ms)) > st.limit.value
    ensures !AdvertiseAll(ms, st).exceeded ==>
              AdvertiseAll(ms, st) == Offer(ms, Elements(ms), NameBytes(Elements(ms)), false)
  {
    if ms != [] {
      var front, m := ms[..|ms| - 1], ms[|ms| - 1];
      AccountingIsExact(front, st);
      assert ms == front + [m];
      assert Elements(ms) == Elements(front) + {m};
      NameBytesMonotone(Elements(front), Elements(ms));
      if m in Elements(front) {
        assert Elements(ms) == Elements(front);
        if front == [] { assert false; }
      } else {
        NameBytesSplit(Elements(ms), m);
        assert Elements(ms) - {m} == Elements(front);
      }
    }
  }

  /** Which offers are ignored, said of the advertised sequence alone. */
  lemma IgnoredExactly(ms: seq<Mime>, st: Settings)
    ensures ShouldIgnore(AdvertiseAll(ms, st), st) <==> !Welcome(ms, st)
  {
    AccountingIsExact(ms, st);
    var o := AdvertiseAll(ms, st);
    if !o.exceeded {
      assert o.unique == {} <==> ms == [] by {
        if ms != [] { assert ms[0] in o.unique; }
      }
      assert forall m :: m in o.unique <==> m in ms;
    }
  }

  /** Two clients that advertise the same types, in any order and with any repetition, are
      treated alike. */
  lemma OrderAndRepetitionDoNotMatter(ms: seq<Mime>, ms': seq<Mime>, st: Settings)
    requires Elements(ms) == Elements(ms')
    ensures AdvertiseAll(ms, st).exceeded == AdvertiseAll(ms', st).exceeded
    ensures ShouldIgnore(AdvertiseAll(ms, st), st) == ShouldIgnore(AdvertiseAll(ms', st), st)
  {
    assert forall m :: m in ms <==> m in Elements(ms);
    assert forall m :: m in ms' <==> m in Elements(ms');
    AccountingIsExact(ms, st);
    AccountingIsExact(ms', st);
    IgnoredExactly(ms, st);
    IgnoredExactly(ms', st);
  }
}
