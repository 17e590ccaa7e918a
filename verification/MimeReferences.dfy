/** The reference counts behind the MIME types of an offer. A type is shared by the ordered list, in which
    it can occur several times, and by one more holder: first the set of distinct types, then the record
    of its pipe, then the table of data. */
module MimeReferences {
  import opened Protocol
  import opened PipeReader
  import opened ClientSpec
  import opened Resolution

  type Ref = nat

  /** Reference-counted strings. A string is freed when its last reference is dropped. */
  class Heap {
    var text: map<Ref, Mime>
    var strong: map<Ref, nat>
    var next: Ref

    constructor ()
      ensures Valid() && strong == map[]
    {
      text, strong, next := map[], map[], 0;
    }

    ghost predicate Valid()
      reads this
    {
      && text.Keys == strong.Keys
      && (forall r :: r in strong ==> r < next && strong[r] > 0)
    }

    /** A new string, with one reference to it. */
    method New(m: Mime) returns (r: Ref)
      requires Valid()
      modifies this
      ensures Valid() && r !in old(strong)
      ensures strong == old(strong)[r := 1] && text == old(text)[r := m]
    {
      r := next;
      next, strong, text := next + 1, strong[r := 1], text[r := m];
    }

    method Clone(r: Ref)
      requires Valid() && r in strong
      modifies this`strong
      ensures Valid() && strong == old(strong)[r := old(strong)[r] + 1]
    {
      strong := strong[r := strong[r] + 1];
    }

    method Drop(r: Ref)
      requires Valid() && r in strong
      modifies this`strong, this`text
      ensures Valid() && Dropped(old(strong), strong, old(text), text, r)
    {
      if strong[r] == 1 {
        strong, text := strong - {r}, text - {r};
      } else {
        strong := strong[r := strong[r] - 1];
      }
    }

    /** Gives up a reference, and gets the string out if that was the last one. */
    method IntoInner(r: Ref) returns (m: Option<Mime>)
      requires Valid() && r in strong
      modifies this`strong, this`text
      ensures Valid() && Dropped(old(strong), strong, old(text), text, r)
      ensures m == if old(strong)[r] == 1 then Some(old(text)[r]) else None
    {
      if strong[r] == 1 {
        m := Some(text[r]);
      } else {
        m := None;
      }
      Drop(r);
    }
  }

  ghost predicate Dropped(strong: map<Ref, nat>, strong': map<Ref, nat>, text: map<Ref, Mime>, text': map<Ref, Mime>,
                          r: Ref)
    requires r in strong
  {
    if strong[r] == 1 then strong' == strong - {r} && text' == text - {r}
    else strong[r] > 1 && strong' == strong[r := strong[r] - 1] && text' == text
  }

  // ----- the invariant -----

  function References(ordered: seq<Ref>, holder: set<Ref>, r: Ref): nat {
    multiset(ordered)[r] + if r in holder then 1 else 0
  }

  /** Every string of the offer has one reference from its holder, and one for each occurrence in the
      ordered list; and equal types are the same string. */
  ghost predicate Counted(heap: Heap, ordered: seq<Ref>, holder: set<Ref>)
    reads heap
  {
    && heap.Valid()
    && (forall r :: r in ordered || r in holder ==>
          r in heap.strong && heap.strong[r] == References(ordered, holder, r))
    && (forall r, s :: (r in ordered || r in holder) && (s in ordered || s in holder) ==>
          (heap.text[r] == heap.text[s] ==> r == s))
  }

  /** Nothing is allocated, freed or counted differently but the strings `mine`. */
  twostate predicate OthersUnchanged(heap: Heap, mine: set<Ref>)
    reads heap
  {
    forall r :: r !in mine ==>
      && (r in heap.strong <==> r in old(heap.strong)) && (r in heap.text <==> r in old(heap.text))
      && (r in heap.strong ==> heap.strong[r] == old(heap.strong)[r])
      && (r in heap.text ==> heap.text[r] == old(heap.text)[r])
  }

  function Texts(text: map<Ref, Mime>, refs: seq<Ref>): seq<Mime>
    requires forall r :: r in refs ==> r in text
  {
    seq(|refs|, i requires 0 <= i < |refs| => text[refs[i]])
  }

  function TypesOf(text: map<Ref, Mime>, refs: set<Ref>): set<Mime>
    requires refs <= text.Keys
  {
    set r | r in refs :: text[r]
  }

  lemma SameTypes(text: map<Ref, Mime>, text': map<Ref, Mime>, refs: set<Ref>)
    requires refs <= text.Keys && refs <= text'.Keys && forall r :: r in refs ==> text'[r] == text[r]
    ensures TypesOf(text', refs) == TypesOf(text, refs)
  {
  }

  lemma OneMoreType(text: map<Ref, Mime>, refs: set<Ref>, r: Ref)
    requires refs <= text.Keys && r in text
    ensures TypesOf(text, refs + {r}) == TypesOf(text, refs) + {text[r]}
  {
  }

  /** The references to types that are chosen. */
  function Chosen(text: map<Ref, Mime>, refs: set<Ref>, keeps: Mime -> bool): set<Ref>
    requires refs <= text.Keys
  {
    set r | r in refs && keeps(text[r])
  }

  // ----- the stages -----

  /** A type is advertised: it is found among the distinct types and shared, or it is new. */
  method Advertise(heap: Heap, ordered: seq<Ref>, unique: set<Ref>, m: Mime) returns (ordered': seq<Ref>,
                   unique': set<Ref>)
    requires Counted(heap, ordered, unique) && (forall r :: r in ordered <==> r in unique)
    modifies heap
    ensures Counted(heap, ordered', unique') && (forall r :: r in ordered' <==> r in unique')
    ensures OthersUnchanged(heap, unique') && unique <= unique'
    ensures Texts(heap.text, ordered') == old(Texts(heap.text, ordered)) + [m]
    ensures TypesOf(heap.text, unique') == old(TypesOf(heap.text, unique)) + {m}
    ensures unique' - unique !! old(heap.strong.Keys)
  {
    var found := Lookup(heap, unique, m);
    if found.Some? {
      Share(heap, ordered, unique, found.value);
      assert m in TypesOf(heap.text, unique);
      assert TypesOf(heap.text, unique) == TypesOf(heap.text, unique) + {m};
      return ordered + [found.value], unique;
    } else {
      var r := AddNew(heap, ordered, unique, m);
      SameTypes(old(heap.text), heap.text, unique);
      assert TypesOf(heap.text, unique + {r}) == TypesOf(heap.text, unique) + {m};
      return ordered + [r], unique + {r};
    }
  }

  method Share(heap: Heap, ordered: seq<Ref>, unique: set<Ref>, r: Ref)
    requires Counted(heap, ordered, unique) && r in unique
    modifies heap`strong
    ensures Counted(heap, ordered + [r], unique) && OthersUnchanged(heap, unique)
  {
    heap.Clone(r);
  }

  method AddNew(heap: Heap, ordered: seq<Ref>, unique: set<Ref>, m: Mime) returns (r: Ref)
    requires Counted(heap, ordered, unique) && (forall r :: r in ordered <==> r in unique)
    requires forall r :: r in unique ==> heap.text[r] != m
    modifies heap
    ensures r !in unique && Counted(heap, ordered + [r], unique + {r}) && OthersUnchanged(heap, unique + {r})
    ensures heap.text == old(heap.text)[r := m] && r !in old(heap.strong)
  {
    r := heap.New(m);
    heap.Clone(r);
  }

  method Lookup(heap: Heap, unique: set<Ref>, m: Mime) returns (found: Option<Ref>)
    requires heap.Valid() && forall r :: r in unique ==> r in heap.strong
    ensures found.Some? ==> found.value in unique && heap.text[found.value] == m
    ensures found.None? ==> forall r :: r in unique ==> heap.text[r] != m
  {
    var left := unique;
    while left != {}
      invariant left <= unique && forall r :: r in unique - left ==> heap.text[r] != m
    {
      var r :| r in left;
      if heap.text[r] == m {
        return Some(r);
      }
      left := left - {r};
    }
    return None;
  }

  /** Takes the types out of their holder one by one, in some order: those that `keeps` go on to the next
      holder, the others are dropped. So it is for pipes that can be made, and for pipes that could be
      read. */
  method PassOn(heap: Heap, ordered: seq<Ref>, holder: set<Ref>, keeps: Mime -> bool) returns (holder': set<Ref>)
    requires Counted(heap, ordered, holder)
    modifies heap
    ensures Counted(heap, ordered, holder') && OthersUnchanged(heap, holder)
    ensures holder' == Chosen(old(heap.text), holder, keeps)
    ensures forall r :: r in holder' ==> heap.text[r] == old(heap.text)[r]
    ensures forall r :: r in holder - holder' && r !in ordered ==> r !in heap.strong
  {
    var left := holder - Chosen(heap.text, holder, keeps);
    holder' := holder;
    while left != {}
      invariant left <= holder' <= holder && holder' - left == Chosen(old(heap.text), holder, keeps)
      invariant Counted(heap, ordered, holder') && OthersUnchanged(heap, holder)
      invariant forall r :: r in holder' ==> heap.text[r] == old(heap.text)[r]
      invariant forall r :: r in holder - holder' && r !in ordered ==> r !in heap.strong
    {
      var r :| r in left;
      DropHeld(heap, ordered, holder', r);
      left, holder' := left - {r}, holder' - {r};
    }
  }

  /** The holder drops one of its strings. */
  method DropHeld(heap: Heap, ordered: seq<Ref>, holder: set<Ref>, r: Ref)
    requires Counted(heap, ordered, holder) && r in holder
    modifies heap
    ensures Counted(heap, ordered, holder - {r}) && OthersUnchanged(heap, {r})
    ensures forall s :: s in ordered || s in holder - {r} ==> heap.text[s] == old(heap.text)[s]
    ensures r !in ordered ==> r !in heap.strong
  {
    heap.Drop(r);
  }

  /** The first reference of the ordered list is dropped. */
  method DropFirst(heap: Heap, ordered: seq<Ref>, holder: set<Ref>)
    requires Counted(heap, ordered, holder) && ordered != []
    modifies heap
    ensures Counted(heap, ordered[1..], holder) && OthersUnchanged(heap, {ordered[0]})
    ensures forall r :: r in ordered[1..] || r in holder ==> heap.text[r] == old(heap.text)[r]
    ensures ordered[0] !in ordered[1..] && ordered[0] !in holder ==> ordered[0] !in heap.strong
  {
    assert ordered == [ordered[0]] + ordered[1..];
    heap.Drop(ordered[0]);
  }

  /** Drops the ordered list, one reference after the other. */
  method DropOrdered(heap: Heap, ordered: seq<Ref>, holder: set<Ref>)
    requires Counted(heap, ordered, holder)
    modifies heap
    ensures Counted(heap, [], holder) && OthersUnchanged(heap, Elements(ordered))
    ensures forall r :: r in holder ==> heap.text[r] == old(heap.text)[r]
    ensures forall r :: r in ordered && r !in holder ==> r !in heap.strong
  {
    for k := 0 to |ordered|
      invariant Counted(heap, ordered[k..], holder) && OthersUnchanged(heap, Elements(ordered))
      invariant forall r :: r in ordered[k..] || r in holder ==> heap.text[r] == old(heap.text)[r]
      invariant forall r :: r in ordered[..k] && r !in ordered[k..] && r !in holder ==> r !in heap.strong
    {
      assert ordered[k..][1..] == ordered[k + 1..] && ordered[..k + 1] == ordered[..k] + [ordered[k]];
      assert forall r :: r in ordered[k..] <==> r == ordered[k] || r in ordered[k + 1..];
      DropFirst(heap, ordered[k..], holder);
    }
    assert ordered[..|ordered|] == ordered && ordered[|ordered|..] == [];
  }

  /** A key gives up its string, which succeeds exactly if the ordered list has no reference to it. */
  method TakeOne(heap: Heap, ordered: seq<Ref>, keys: set<Ref>, r: Ref) returns (m: Option<Mime>)
    requires Counted(heap, ordered, keys) && r in keys
    modifies heap
    ensures m == if r in ordered then None else Some(old(heap.text)[r])
    ensures Counted(heap, ordered, keys - {r}) && OthersUnchanged(heap, {r})
    ensures forall s :: s in ordered || s in keys - {r} ==> heap.text[s] == old(heap.text)[s]
    ensures r in ordered <==> r in heap.strong
  {
    m := heap.IntoInner(r);
  }

  /** Once the ordered list is gone, unwrapping a key cannot fail. */
  method Unwrap(heap: Heap, keys: set<Ref>, r: Ref) returns (m: Mime)
    requires Counted(heap, [], keys) && r in keys
    modifies heap
    ensures m == old(heap.text)[r]
    ensures Counted(heap, [], keys - {r}) && OthersUnchanged(heap, {r}) && r !in heap.strong
    ensures forall s :: s in keys - {r} ==> heap.text[s] == old(heap.text)[s]
  {
    var inner := TakeOne(heap, [], keys, r);
    m := inner.value;
  }

  /** The keys in `left` still hold their strings, and the others have given up theirs. */
  ghost predicate Unwrapping(heap: Heap, text: map<Ref, Mime>, keys: set<Ref>, left: set<Ref>, strings: set<Mime>)
    requires keys <= text.Keys
    reads heap
  {
    && left <= keys && Counted(heap, [], left)
    && (forall r :: r in left ==> heap.text[r] == text[r])
    && keys - left !! heap.strong.Keys
    && strings == TypesOf(text, keys - left)
  }

  method UnwrapNext(heap: Heap, ghost text: map<Ref, Mime>, ghost keys: set<Ref>, left: set<Ref>, strings: set<Mime>,
                    r: Ref) returns (strings': set<Mime>)
    requires keys <= text.Keys && Unwrapping(heap, text, keys, left, strings) && r in left
    modifies heap
    ensures Unwrapping(heap, text, keys, left - {r}, strings') && OthersUnchanged(heap, {r})
  {
    var m := Unwrap(heap, left, r);
    AllButOne(text, keys, left, r);
    strings' := strings + {m};
  }

  /** Every key of the data gives up its string. */
  method UnwrapAll(heap: Heap, keys: set<Ref>) returns (strings: set<Mime>)
    requires Counted(heap, [], keys)
    modifies heap
    ensures strings == TypesOf(old(heap.text), keys)
    ensures forall r :: r in keys ==> r !in heap.strong
    ensures heap.Valid() && OthersUnchanged(heap, keys)
  {
    ghost var text := heap.text;
    var left := keys;
    strings := {};
    while left != {}
      invariant Unwrapping(heap, text, keys, left, strings) && OthersUnchanged(heap, keys)
    {
      var r :| r in left;
      strings := UnwrapNext(heap, text, keys, left, strings, r);
      left := left - {r};
    }
    assert keys - left == keys;
  }

  lemma AllButOne(text: map<Ref, Mime>, keys: set<Ref>, left: set<Ref>, r: Ref)
    requires left <= keys <= text.Keys && r in left
    ensures TypesOf(text, keys - (left - {r})) == TypesOf(text, keys - left) + {text[r]}
  {
    assert keys - (left - {r}) == keys - left + {r};
    OneMoreType(text, keys - left, r);
  }

  /** Publication. The ordered list is used up first, and then the keys give up their strings. None of
      them fails to, and nothing is left allocated. */
  method TakeStrings(heap: Heap, ordered: seq<Ref>, keys: set<Ref>) returns (strings: set<Mime>)
    requires Counted(heap, ordered, keys)
    modifies heap
    ensures strings == TypesOf(old(heap.text), keys)
    ensures forall r :: r in ordered || r in keys ==> r !in heap.strong
    ensures heap.Valid() && OthersUnchanged(heap, Elements(ordered) + keys)
  {
    DropOrdered(heap, ordered, keys);
    SameTypes(old(heap.text), heap.text, keys);
    strings := UnwrapAll(heap, keys);
  }

  /** An offer, a selection or its data are dropped as they are, list or holder first. */
  method DropAll(heap: Heap, ordered: seq<Ref>, holder: set<Ref>, holderFirst: bool)
    requires Counted(heap, ordered, holder)
    modifies heap
    ensures forall r :: r in ordered || r in holder ==> r !in heap.strong
    ensures heap.Valid() && OthersUnchanged(heap, Elements(ordered) + holder)
  {
    if holderFirst {
      var none := PassOn(heap, ordered, holder, _ => false);
      DropOrdered(heap, ordered, none);
    } else {
      DropOrdered(heap, ordered, holder);
      var none := PassOn(heap, [], holder, _ => false);
    }
  }

  /** Where the life of an offer's strings ends: with the offer itself, whether pending or looked at, with
      its pipes, with its data, or in a publication. */
  datatype End = OfferDropped | PipesDropped | DataDropped | TakenOver

  /** The whole life of an offer's strings, from the first type that is advertised to whatever becomes of
      it: replaced or destroyed at any stage, or published with the types whose pipe could be made and
      could be read. The keys can always be unwrapped, and when all is over the heap is as it was. */
  method Life(heap: Heap, types: seq<Mime>, opening: Mime -> bool, reading: Mime -> bool, end: End, holderFirst: bool)
    returns (strings: Option<set<Mime>>)
    requires heap.Valid()
    modifies heap
    ensures strings == if end.TakenOver? then Some(set m | m in types && opening(m) && reading(m)) else None
    ensures heap.strong == old(heap.strong)
  {
    var ordered, unique: set<Ref> := AdvertiseAll(heap, types);
    ghost var all := heap.text;
    strings := FromOffer(heap, ordered, unique, opening, reading, end, holderFirst);
    PassedTypes(all, types, unique, opening, reading);
  }

  method FromOffer(heap: Heap, ordered: seq<Ref>, unique: set<Ref>, opening: Mime -> bool, reading: Mime -> bool,
                   end: End, holderFirst: bool) returns (strings: Option<set<Mime>>)
    requires Counted(heap, ordered, unique) && (forall r :: r in ordered <==> r in unique)
    modifies heap
    ensures strings == if end.TakenOver?
                       then Some(TypesOf(old(heap.text), Passed(old(heap.text), unique, opening, reading)))
                       else None
    ensures heap.Valid() && OthersUnchanged(heap, unique) && unique !! heap.strong.Keys
  {
    ghost var text := heap.text;
    if end.OfferDropped? {
      DropAll(heap, ordered, unique, holderFirst);
      return None;
    }
    var pipes := PassOn(heap, ordered, unique, opening);
    PassedTwice(text, heap.text, unique, opening, reading);
    strings := FromPipes(heap, ordered, pipes, reading, end, holderFirst);
  }

  lemma PassedTwice(text: map<Ref, Mime>, text': map<Ref, Mime>, unique: set<Ref>,
                    opening: Mime -> bool, reading: Mime -> bool)
    requires unique <= text.Keys
    requires forall r :: r in Chosen(text, unique, opening) ==> r in text' && text'[r] == text[r]
    ensures Chosen(text', Chosen(text, unique, opening), reading) == Passed(text, unique, opening, reading)
    ensures TypesOf(text', Passed(text, unique, opening, reading)) ==
              TypesOf(text, Passed(text, unique, opening, reading))
  {
    var pipes, passed := Chosen(text, unique, opening), Passed(text, unique, opening, reading);
    assert forall r :: r in Chosen(text', pipes, reading) <==> r in passed;
    SameTypes(text, text', passed);
  }

  method FromPipes(heap: Heap, ordered: seq<Ref>, pipes: set<Ref>, reading: Mime -> bool, end: End, holderFirst: bool)
    returns (strings: Option<set<Mime>>)
    requires Counted(heap, ordered, pipes) && (forall r :: r in pipes ==> r in ordered)
    modifies heap
    ensures strings == if end.TakenOver? then Some(TypesOf(old(heap.text), Chosen(old(heap.text), pipes, reading)))
                       else None
    ensures heap.Valid() && OthersUnchanged(heap, Elements(ordered)) && Elements(ordered) !! heap.strong.Keys
  {
    if end.PipesDropped? {
      DropAll(heap, ordered, pipes, holderFirst);
      return None;
    }
    ghost var text := heap.text;
    var keys := PassOn(heap, ordered, pipes, reading);
    if !end.TakenOver? {
      DropAll(heap, ordered, keys, holderFirst);
      return None;
    }
    SameTypes(text, heap.text, keys);
    var all := TakeStrings(heap, ordered, keys);
    return Some(all);
  }

  function Passed(text: map<Ref, Mime>, unique: set<Ref>, opening: Mime -> bool, reading: Mime -> bool): set<Ref>
    requires unique <= text.Keys
  {
    set r | r in unique && opening(text[r]) && reading(text[r])
  }

  lemma PassedTypes(text: map<Ref, Mime>, types: seq<Mime>, unique: set<Ref>,
                    opening: Mime -> bool, reading: Mime -> bool)
    requires unique <= text.Keys && TypesOf(text, unique) == Elements(types)
    ensures TypesOf(text, Passed(text, unique, opening, reading)) == set m | m in types && opening(m) && reading(m)
  {
    var keys := Passed(text, unique, opening, reading);
    forall m | m in types && opening(m) && reading(m) ensures m in TypesOf(text, keys) {
      assert m in TypesOf(text, unique);
    }
    forall m | m in TypesOf(text, keys) ensures m in types {
      assert m in TypesOf(text, unique);
      assert m in Elements(types);
    }
  }

  // ----- the stages of a selection -----

  /** Later records of the same pipes. */
  predicate SamePipes(made: seq<PipeRecord>, pipes: seq<PipeRecord>) {
    |made| == |pipes| && forall i :: 0 <= i < |made| ==> made[i].mime == pipes[i].mime
  }

  lemma {:induction false} CollectedTypes(pipes: seq<PipeRecord>)
    requires Collect(pipes).Some?
    ensures Collect(pipes).value.Keys <= set p | p in pipes :: p.mime
  {
    if pipes != [] {
      CollectedTypes(pipes[..|pipes| - 1]);
    }
  }

  /** The same life told of the states that a selection goes through: the advertised list, the pipes made
      for its types, and the data collected from them. */
  method LifeOfSelection(heap: Heap, ms: seq<Mime>, made: seq<PipeRecord>, pipes: seq<PipeRecord>, end: End,
                         holderFirst: bool) returns (strings: Option<set<Mime>>)
    requires heap.Valid() && SamePipes(made, pipes) && Collect(pipes).Some?
    requires forall p :: p in made ==> p.mime in ms
    modifies heap
    ensures strings == if end.TakenOver? then Some(Collect(pipes).value.Keys) else None
    ensures heap.strong == old(heap.strong)
  {
    var types: set<Mime> := set p | p in made :: p.mime;
    var data := Collect(pipes).value;
    var opening, reading := (m: Mime) => m in types, (m: Mime) => m in data;
    CollectedTypes(pipes);
    forall m | m in data ensures m in ms && m in types {
      var p :| p in pipes && p.mime == m;
      var i :| 0 <= i < |pipes| && pipes[i] == p;
      assert made[i] in made;
    }
    assert (set m | m in ms && opening(m) && reading(m)) == data.Keys;
    strings := Life(heap, ms, opening, reading, end, holderFirst);
  }

  /** The resolution loop makes pipes for advertised types only. */
  lemma MadeForAdvertised(ms: seq<Mime>, todo: seq<Mime>, open: Mime -> PipeOutcome, st: Settings)
    requires Lists(todo, Elements(ms))
    ensures forall p :: p in CreatePipes(todo, open, st).pipes ==> p.mime in ms
  {
    CreatePipesOk(todo, open, st);
    var made := CreatePipes(todo, open, st);
    forall p | p in made.pipes ensures p.mime in ms {
      assert p.mime in Elements(todo);
    }
  }

  method AdvertiseAll(heap: Heap, types: seq<Mime>) returns (ordered: seq<Ref>, unique: set<Ref>)
    requires heap.Valid()
    modifies heap
    ensures Counted(heap, ordered, unique) && (forall r :: r in ordered <==> r in unique)
    ensures OthersUnchanged(heap, unique) && unique !! old(heap.strong.Keys)
    ensures Texts(heap.text, ordered) == types && TypesOf(heap.text, unique) == Elements(types)
  {
    ordered, unique := [], {};
    for k := 0 to |types|
      invariant Counted(heap, ordered, unique) && (forall r :: r in ordered <==> r in unique)
      invariant OthersUnchanged(heap, unique) && unique !! old(heap.strong.Keys)
      invariant Texts(heap.text, ordered) == types[..k] && TypesOf(heap.text, unique) == Elements(types[..k])
    {
      assert types[..k + 1] == types[..k] + [types[k]];
      ordered, unique := Advertise(heap, ordered, unique, types[k]);
    }
    assert types[..|types|] == types;
  }
}
