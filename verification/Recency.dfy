/** Recency lists: what one LRU list of the cache holds, most recently used first. */
module Recency {
  import opened Wrappers
  import opened EntityKeys

  datatype Entry<V> = Entry(key: Key, value: V, partial: bool, expires: nat) {
    predicate Live(now: nat) { now < expires }
  }

  ghost predicate Distinct<V(!new)>(es: seq<Entry<V>>) {
    forall i, j :: 0 <= i < j < |es| ==> es[i].key != es[j].key
  }

  /** The entry filed under k, if any. */
  function Find<V(!new)>(es: seq<Entry<V>>, k: Key): (r: Option<Entry<V>>)
    ensures r.Some? ==> r.value in es && r.value.key == k
    ensures r.None? ==> forall e :: e in es ==> e.key != k
  {
    if es == [] then None else if es[0].key == k then Some(es[0]) else Find(es[1..], k)
  }

  /** es without the entries that drop selects, in the same order. */
  function Sift<V(!new)>(es: seq<Entry<V>>, drop: Entry<V> -> bool): (r: seq<Entry<V>>)
    ensures |r| <= |es|
    ensures forall e :: e in r <==> e in es && !drop(e)
  {
    if es == [] then [] else (if drop(es[0]) then [] else [es[0]]) + Sift(es[1..], drop)
  }

  function At<V(!new)>(k: Key): Entry<V> -> bool { (e: Entry<V>) => e.key == k }

  function Matching<V(!new)>(matches: Key -> bool): Entry<V> -> bool { (e: Entry<V>) => matches(e.key) }

  function Stale<V(!new)>(matches: Key -> bool, now: nat): Entry<V> -> bool {
    (e: Entry<V>) => matches(e.key) && !e.Live(now)
  }

  function Without<V(!new)>(es: seq<Entry<V>>, k: Key): seq<Entry<V>> { Sift(es, At(k)) }

  /** The list bounded again after one insertion. */
  function Trim<V(!new)>(es: seq<Entry<V>>, limit: int): seq<Entry<V>> {
    if |es| > limit && es != [] then es[..|es| - 1] else es
  }

  /** e placed in front, replacing any entry under the same key. */
  function Store<V(!new)>(es: seq<Entry<V>>, e: Entry<V>, limit: int): seq<Entry<V>> {
    Trim([e] + Without(es, e.key), limit)
  }

  /** es with the entry under k moved in front. */
  function Touch<V(!new)>(es: seq<Entry<V>>, k: Key): seq<Entry<V>> {
    match Find(es, k) case Some(e) => [e] + Without(es, k) case None => es
  }

  // ---------- Lookups ----------

  lemma FindIn<V(!new)>(es: seq<Entry<V>>, e: Entry<V>)
    requires Distinct(es) && e in es
    ensures Find(es, e.key) == Some(e)
  {
    var r := Find(es, e.key);
    var i :| 0 <= i < |es| && es[i] == e;
    if r.Some? {
      var j :| 0 <= j < |es| && es[j] == r.value;
      assert i == j by { if i < j {} else if j < i {} }
    }
  }

  lemma {:induction false} SiftDistinct<V(!new)>(es: seq<Entry<V>>, drop: Entry<V> -> bool)
    requires Distinct(es)
    ensures Distinct(Sift(es, drop))
  {
    if es != [] {
      SiftDistinct(es[1..], drop);
      assert Distinct(es[1..]);
      var rest := Sift(es[1..], drop);
      forall e | e in rest ensures e.key != es[0].key {
        var j :| 0 <= j < |es[1..]| && es[1..][j] == e;
        assert es[j + 1] == e;
      }
    }
  }

  lemma {:induction false} SiftFind<V(!new)>(es: seq<Entry<V>>, drop: Entry<V> -> bool, k: Key)
    requires Distinct(es)
    ensures Find(Sift(es, drop), k) == if Find(es, k).Some? && !drop(Find(es, k).value) then Find(es, k) else None
  {
    SiftDistinct(es, drop);
    var r := Find(es, k);
    if r.Some? && !drop(r.value) {
      FindIn(Sift(es, drop), r.value);
    } else if Find(Sift(es, drop), k).Some? {
      FindIn(es, Find(Sift(es, drop), k).value);
    }
  }

  /** Sifting twice drops what either sieve drops. */
  lemma {:induction false} SiftTwice<V(!new)>(es: seq<Entry<V>>, p: Entry<V> -> bool, q: Entry<V> -> bool,
                                       r: Entry<V> -> bool)
    requires forall e :: e in es ==> (r(e) <==> p(e) || q(e))
    ensures Sift(Sift(es, p), q) == Sift(es, r)
  {
    if es != [] {
      SiftTwice(es[1..], p, q, r);
      var rest := Sift(es[1..], p);
      assert es[0] in es && [] + rest == rest && ([es[0]] + rest)[1..] == rest;
    }
  }

  lemma {:induction false} SiftNothing<V(!new)>(es: seq<Entry<V>>, drop: Entry<V> -> bool)
    requires forall e :: e in es ==> !drop(e)
    ensures Sift(es, drop) == es
  {
    if es != [] { SiftNothing(es[1..], drop); }
  }

  lemma {:induction false} WithoutShrinks<V(!new)>(es: seq<Entry<V>>, k: Key)
    requires Distinct(es)
    ensures Distinct(Without(es, k))
    ensures |Without(es, k)| == |es| - if Find(es, k).Some? then 1 else 0
    ensures Find(es, k).None? ==> Without(es, k) == es
  {
    SiftDistinct(es, At(k));
    if Find(es, k).None? {
      SiftNothing(es, At(k));
    } else if es[0].key == k {
      forall e | e in es[1..] ensures e.key != k {
        var i :| 0 <= i < |es[1..]| && es[1..][i] == e;
        assert es[i + 1] == e;
      }
      SiftNothing(es[1..], At(k));
    } else {
      assert Distinct(es[1..]);
      WithoutShrinks(es[1..], k);
    }
  }

  lemma PrependDistinct<V(!new)>(e: Entry<V>, es: seq<Entry<V>>)
    requires Distinct(es) && forall x :: x in es ==> x.key != e.key
    ensures Distinct([e] + es)
  {
    var r := [e] + es;
    forall i, j | 0 <= i < j < |r| ensures r[i].key != r[j].key {
      assert r[j] == es[j - 1] && (i > 0 ==> r[i] == es[i - 1]);
    }
  }

  /** Storing keeps keys distinct and the bound; the stored entry is found in front, and the one
      other entry given up, if a full list gains a key, is the last. */
  lemma StoreKeeps<V(!new)>(es: seq<Entry<V>>, e: Entry<V>, limit: int)
    requires Distinct(es) && 1 <= limit && |es| <= limit
    ensures var r := Store(es, e, limit);
      && Distinct(r) && |r| <= limit && r != [] && r[0] == e && Find(r, e.key) == Some(e)
      && (forall k :: k != e.key ==>
            Find(r, k) ==
            if |es| == limit && Find(es, e.key).None? && k == es[|es| - 1].key then None else Find(es, k))
  {
    var rest := Without(es, e.key);
    var full := [e] + rest;
    WithoutShrinks(es, e.key);
    PrependDistinct(e, rest);
    var r := Store(es, e, limit);
    assert Distinct(r) && r[0] == e;
    FindIn(r, e);
    forall k | k != e.key
      ensures Find(r, k) ==
        if |es| == limit && Find(es, e.key).None? && k == es[|es| - 1].key then None else Find(es, k)
    {
      SiftFind(es, At(e.key), k);
      if |full| > limit { StoreEvicts(e, rest, k); }
      else if Find(es, k).Some? {
        FindIn(r, Find(es, k).value);
      }
    }
  }

  lemma StoreEvicts<V(!new)>(e: Entry<V>, es: seq<Entry<V>>, k: Key)
    requires Distinct(es) && es != [] && k != e.key
    ensures Find(([e] + es)[..|es|], k) == if k == es[|es| - 1].key then None else Find(es, k)
  {
    var r := ([e] + es)[..|es|];
    var front := es[..|es| - 1];
    assert r == [e] + front && r[1..] == front;
    assert Find(r, k) == Find(front, k);
    if Find(es, k).Some? && k != es[|es| - 1].key {
      var j :| 0 <= j < |es| && es[j] == Find(es, k).value;
      assert front[j] == es[j];
      FindIn(front, es[j]);
    }
  }

  lemma {:induction false} WithoutLast<V(!new)>(es: seq<Entry<V>>)
    requires Distinct(es) && es != []
    ensures Without(es, es[|es| - 1].key) == es[..|es| - 1]
  {
    var k := es[|es| - 1].key;
    assert Distinct(es[1..]);
    if |es| > 1 {
      WithoutLast(es[1..]);
      assert es[..|es| - 1] == [es[0]] + es[1..][..|es| - 2];
    }
  }

  lemma TouchKeeps<V(!new)>(es: seq<Entry<V>>, k: Key)
    requires Distinct(es)
    ensures Distinct(Touch(es, k)) && |Touch(es, k)| == |es|
    ensures forall e :: e in Touch(es, k) <==> e in es
    ensures forall j :: Find(Touch(es, k), j) == Find(es, j)
    ensures Find(es, k).Some? ==> Touch(es, k)[0] == Find(es, k).value
  {
    WithoutShrinks(es, k);
    var r := Touch(es, k);
    if Find(es, k).Some? { PrependDistinct(Find(es, k).value, Without(es, k)); }
    forall e | e in es ensures e in r { FindIn(es, e); }
    forall j ensures Find(r, j) == Find(es, j) {
      if Find(es, j).Some? { FindIn(r, Find(es, j).value); }
    }
  }

  // ---------- Sublists ----------

  /** a is a subsequence of b. */
  ghost predicate Sublist<V(!new)>(a: seq<Entry<V>>, b: seq<Entry<V>>) {
    if a == [] then true
    else if b == [] then false
    else if a[0] == b[0] then Sublist(a[1..], b[1..])
    else Sublist(a, b[1..])
  }

  lemma {:induction false} SublistWeaken<V(!new)>(a: seq<Entry<V>>, b: seq<Entry<V>>, x: Entry<V>)
    requires Sublist(a, b)
    ensures Sublist(a, [x] + b)
    ensures a != [] ==> Sublist(a[1..], b)
    decreases |b|
  {
    assert ([x] + b)[1..] == b;
    if a != [] {
      if a[0] == b[0] {
        assert [b[0]] + b[1..] == b;
        SublistWeaken(a[1..], b[1..], b[0]);
      } else {
        SublistWeaken(a, b[1..], b[0]);
        assert Sublist(a[1..], b[1..]);
        SublistWeaken(a[1..], b[1..], b[0]);
        assert [b[0]] + b[1..] == b;
      }
    }
  }

  lemma {:induction false} SublistMembers<V(!new)>(a: seq<Entry<V>>, b: seq<Entry<V>>)
    requires Sublist(a, b)
    ensures forall e :: e in a ==> e in b
    ensures |a| <= |b|
    decreases |b|
  {
    if a != [] {
      assert a == [a[0]] + a[1..];
      if a[0] == b[0] { SublistMembers(a[1..], b[1..]); } else { SublistMembers(a, b[1..]); }
    }
  }

  lemma {:induction false} SublistSelf<V(!new)>(a: seq<Entry<V>>)
    ensures Sublist(a, a)
  {
    if a != [] { SublistSelf(a[1..]); }
  }

  lemma {:induction false} SublistSift<V(!new)>(a: seq<Entry<V>>, b: seq<Entry<V>>, drop: Entry<V> -> bool)
    requires Sublist(a, b)
    ensures Sublist(Sift(a, drop), Sift(b, drop))
    decreases |b|
  {
    if a != [] {
      var c := Sift(b[1..], drop);
      if a[0] == b[0] {
        SublistSift(a[1..], b[1..], drop);
        var d := Sift(a[1..], drop);
        assert [] + c == c && [] + d == d;
        assert ([a[0]] + d)[1..] == d && ([b[0]] + c)[1..] == c;
      } else {
        SublistSift(a, b[1..], drop);
        SublistWeaken(Sift(a, drop), c, b[0]);
        assert [] + c == c;
      }
    }
  }

  lemma {:induction false} SublistTrim<V(!new)>(a: seq<Entry<V>>, b: seq<Entry<V>>)
    requires Sublist(a, b) && a != []
    ensures Sublist(a[..|a| - 1], b)
    ensures Sublist(a[..|a| - 1], b[..|b| - 1])
    decreases |b|
  {
    var a' := a[..|a| - 1];
    var b' := b[..|b| - 1];
    if |a| > 1 {
      SublistMembers(a, b);
      if a[0] == b[0] {
        SublistTrim(a[1..], b[1..]);
        assert a'[1..] == a[1..][..|a| - 2] && b'[1..] == b[1..][..|b| - 2];
      } else {
        SublistTrim(a, b[1..]);
        SublistMembers(a, b[1..]);
        assert b'[1..] == b[1..][..|b| - 2];
      }
    }
  }

  lemma {:induction false} SiftSublist<V(!new)>(es: seq<Entry<V>>, drop: Entry<V> -> bool)
    ensures Sublist(Sift(es, drop), es)
  {
    if es != [] {
      var rest := Sift(es[1..], drop);
      SiftSublist(es[1..], drop);
      assert [] + rest == rest && ([es[0]] + rest)[1..] == rest && [es[0]] + es[1..] == es;
      SublistWeaken(rest, es[1..], es[0]);
    }
  }

  lemma {:induction false} SublistTrans<V(!new)>(a: seq<Entry<V>>, b: seq<Entry<V>>, c: seq<Entry<V>>)
    requires Sublist(a, b) && Sublist(b, c)
    ensures Sublist(a, c)
    decreases |c|
  {
    if a != [] && b != [] {
      if b[0] == c[0] && a[0] == b[0] {
        SublistTrans(a[1..], b[1..], c[1..]);
      } else {
        SublistTrans(a, if b[0] == c[0] then b[1..] else b, c[1..]);
        SublistWeaken(a, c[1..], c[0]);
        assert [c[0]] + c[1..] == c;
      }
    }
  }
}
