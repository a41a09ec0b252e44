/** The cache as built: a map from keys to list elements beside one linked list per kind, updated in
    place. Every method is tied to the recency-list model it refines. */
module CacheStore {
  import opened Wrappers
  import opened EntityKeys
  import opened Recency
  import opened CacheModel
  import opened CacheTheorems

  datatype Config = Config(enabled: bool, ttl: int, limits: seq<int>) {
    predicate Valid() {
      |limits| == KINDS && ttl >= 0 && forall i :: 0 <= i < KINDS ==> -1 <= limits[i] <= 1_000_000
    }
  }

  const DEFAULT_LIMITS := [2048, 256, 1024, 4096, 1024, 2048]
  const DEFAULT_TTL := 300_000_000_000 // five minutes, in nanoseconds

  /** One element of a linked list. */
  class Element<V(!new)> {
    const entry: Entry<V>

    constructor (entry: Entry<V>)
      ensures this.entry == entry
    {
      this.entry := entry;
    }
  }

  function Entries<V(!new)>(es: seq<Element<V>>): (r: seq<Entry<V>>)
    ensures |r| == |es| && forall i :: 0 <= i < |es| ==> r[i] == es[i].entry
  {
    seq(|es|, i requires 0 <= i < |es| => es[i].entry)
  }

  /** The list after unlinking x. */
  function Unlink<V(!new)>(es: seq<Element<V>>, x: Element<V>): seq<Element<V>> {
    if es == [] then [] else (if es[0] == x then [] else [es[0]]) + Unlink(es[1..], x)
  }

  lemma {:induction false} UnlinkAll<V(!new)>(es: seq<Element<V>>, x: Element<V>)
    requires forall y :: y in es ==> (y.entry.key == x.entry.key <==> y == x)
    ensures Entries(Unlink(es, x)) == Without(Entries(es), x.entry.key)
  {
    if es != [] {
      UnlinkAll(es[1..], x);
      assert Entries(es)[1..] == Entries(es[1..]);
      assert Entries(Unlink(es, x)) == (if es[0] == x then [] else [es[0].entry]) + Entries(Unlink(es[1..], x));
    }
  }

  function ListsOf<V(!new)>(lru: seq<seq<Element<V>>>): (r: seq<seq<Entry<V>>>)
    ensures |r| == |lru| && forall i :: 0 <= i < |lru| ==> r[i] == Entries(lru[i])
  {
    seq(|lru|, i requires 0 <= i < |lru| => Entries(lru[i]))
  }

  lemma ListsOfUpdate<V(!new)>(lru: seq<seq<Element<V>>>, kind: nat, es: seq<Element<V>>)
    requires kind < |lru|
    ensures ListsOf(lru[kind := es]) == ListsOf(lru)[kind := Entries(es)]
  {
  }

  lemma PlacedAfterDrop<V(!new)>(s: State<V>, e: Entry<V>)
    requires s.Shape() && e.key.kind < KINDS && Distinct(s.lists[e.key.kind])
    ensures Placed(Drop(s, e.key), e) == Placed(s, e)
  {
    var kind := e.key.kind;
    var rest := Without(s.lists[kind], e.key);
    SiftDistinct(s.lists[kind], At(e.key));
    WithoutShrinks(rest, e.key);
    assert Placed(Drop(s, e.key), e).lists == Placed(s, e).lists;
  }

  lemma WithTwice<V(!new)>(s: State<V>, kind: Kind, a: seq<Entry<V>>, b: seq<Entry<V>>)
    requires s.Shape() && kind < KINDS
    ensures s.With(kind, a).With(kind, b) == s.With(kind, b)
  {
    assert s.With(kind, a).With(kind, b).lists == s.With(kind, b).lists;
  }

  lemma PutIs<V(!new)>(s: State<V>, k: Key, value: V, partial: bool, now: nat)
    requires s.Valid()
    ensures Apply(s, Op.Put(k, value, partial), now).Valid()
    ensures Apply(s, Op.Put(k, value, partial), now) ==
            if Refuses(s, k, partial, now) then s else Placed(s, Entry(k, value, partial, now + s.ttl))
  {
    if !Refuses(s, k, partial, now) { PlacedKeeps(s, Entry(k, value, partial, now + s.ttl)); }
  }

  // ---------- Sweeping the map key by key ----------

  /** What a sweep has dropped while the keys in todo are still to come. */
  function Swept<V(!new)>(drop: Entry<V> -> bool, todo: set<Key>): Entry<V> -> bool {
    (e: Entry<V>) => drop(e) && e.key !in todo
  }

  lemma SweepStart<V(!new)>(s: State<V>, todo: set<Key>, drop: Entry<V> -> bool)
    requires s.Valid() && forall k :: s.Lookup(k).Some? ==> k in todo
    ensures SiftAll(s, Swept(drop, todo)) == s
  {
    forall kind: Kind | kind < KINDS ensures Sift(s.lists[kind], Swept(drop, todo)) == s.lists[kind] {
      assert s.ListOk(kind);
      forall e | e in s.lists[kind] ensures e.key in todo { FindIn(s.lists[kind], e); }
      SiftNothing(s.lists[kind], Swept(drop, todo));
    }
    assert SiftAll(s, Swept(drop, todo)).lists == s.lists;
  }

  lemma SweepStep<V(!new)>(s: State<V>, todo: set<Key>, drop: Entry<V> -> bool, k: Key)
    requires s.Valid() && k in todo
    ensures var r := SiftAll(s, Swept(drop, todo - {k}));
      r == if s.Lookup(k).Some? && drop(s.Lookup(k).value) then Drop(SiftAll(s, Swept(drop, todo)), k)
           else SiftAll(s, Swept(drop, todo))
    ensures SiftAll(s, Swept(drop, todo)).Lookup(k) == s.Lookup(k)
  {
    SiftAllKeeps(s, Swept(drop, todo));
    var dropped := s.Lookup(k).Some? && drop(s.Lookup(k).value);
    var q: Entry<V> -> bool := if dropped then At(k) else (e: Entry<V>) => false;
    var t := SiftAll(s, Swept(drop, todo));
    var r := SiftAll(s, Swept(drop, todo - {k}));
    var u := if dropped then Drop(t, k) else t;
    forall kind: Kind | kind < KINDS ensures u.lists[kind] == r.lists[kind] {
      assert s.ListOk(kind);
      forall e | e in s.lists[kind] ensures s.Lookup(e.key) == Some(e) { FindIn(s.lists[kind], e); }
      SiftTwice(s.lists[kind], Swept(drop, todo), q, Swept(drop, todo - {k}));
      if !dropped || k.kind != kind { SiftNothing(t.lists[kind], q); }
    }
    assert u.lists == r.lists;
  }

  lemma AppendDistinct<V(!new)>(es: seq<Entry<V>>, e: Entry<V>)
    requires Distinct(es) && forall x :: x in es ==> x.key != e.key
    ensures Distinct(es + [e])
  {
    var r := es + [e];
    forall i, j | 0 <= i < j < |r| ensures r[i].key != r[j].key { assert r[i] == es[i]; }
  }

  /** entries are the live matches of s that are not still to come, each once. */
  ghost predicate Listed<V(!new)>(s: State<V>, entries: seq<Entry<V>>, matches: Key -> bool, now: nat, todo: set<Key>)
    requires s.Shape()
  {
    && Distinct(entries)
    && forall e :: e in entries <==> s.Lookup(e.key) == Some(e) && matches(e.key) && e.Live(now) && e.key !in todo
  }

  lemma ListStep<V(!new)>(s: State<V>, entries: seq<Entry<V>>, matches: Key -> bool, now: nat, todo: set<Key>, k: Key)
    requires s.Shape() && Listed(s, entries, matches, now, todo) && k in todo && s.Lookup(k).Some?
    ensures var e := s.Lookup(k).value;
      Listed(s, if matches(k) && e.Live(now) then entries + [e] else entries, matches, now, todo - {k})
  {
    AppendDistinct(entries, s.Lookup(k).value);
  }

  lemma SweepEnd<V(!new)>(s: State<V>, drop: Entry<V> -> bool)
    requires s.Valid()
    ensures SiftAll(s, Swept(drop, {})) == SiftAll(s, drop)
  {
    forall kind: Kind | kind < KINDS ensures Sift(s.lists[kind], Swept(drop, {})) == Sift(s.lists[kind], drop) {
      SiftNothing(s.lists[kind], (e: Entry<V>) => false);
      SiftTwice(s.lists[kind], (e: Entry<V>) => false, Swept(drop, {}), drop);
    }
    assert SiftAll(s, Swept(drop, {})).lists == SiftAll(s, drop).lists;
  }

  /** The map and the lists hold the same elements, each once, under its own key and kind. */
  ghost predicate LinkedBy<V(!new)>(items: map<Key, Element<V>>, lru: seq<seq<Element<V>>>) {
    && |lru| == KINDS
    && (forall k :: k in items ==> k.kind < KINDS && items[k].entry.key == k && items[k] in lru[k.kind])
    && (forall kind: Kind, x :: kind < KINDS && x in lru[kind] ==>
          x.entry.key.kind == kind && x.entry.key in items && items[x.entry.key] == x)
    && (forall kind: Kind :: kind < KINDS ==> Distinct(Entries(lru[kind])))
  }

  lemma {:induction false} UnlinkMembers<V(!new)>(es: seq<Element<V>>, x: Element<V>, y: Element<V>)
    ensures y in Unlink(es, x) <==> y in es && y != x
  {
    if es != [] { UnlinkMembers(es[1..], x, y); }
  }

  lemma UnlinkLinks<V(!new)>(items: map<Key, Element<V>>, lru: seq<seq<Element<V>>>, after: seq<seq<Element<V>>>,
                      x: Element<V>)
    requires LinkedBy(items, lru) && x.entry.key in items && items[x.entry.key] == x
    requires after == lru[x.entry.key.kind := Unlink(lru[x.entry.key.kind], x)]
    requires forall kind: Kind :: kind < KINDS ==> Distinct(Entries(after[kind]))
    ensures LinkedBy(items - {x.entry.key}, after)
  {
    var k := x.entry.key;
    forall j | j in items - {k} ensures j.kind < KINDS && items[j].entry.key == j && items[j] in after[j.kind] {
      if j.kind == k.kind { UnlinkMembers(lru[k.kind], x, items[j]); }
    }
    forall kind: Kind, y | kind < KINDS && y in after[kind] ensures y in lru[kind] && y != x {
      if kind == k.kind { UnlinkMembers(lru[k.kind], x, y); }
    }
  }

  lemma UnlinkKeeps<V(!new)>(items: map<Key, Element<V>>, lru: seq<seq<Element<V>>>, x: Element<V>)
    requires LinkedBy(items, lru) && x.entry.key in items && items[x.entry.key] == x
    ensures var k := x.entry.key;
      && LinkedBy(items - {k}, lru[k.kind := Unlink(lru[k.kind], x)])
      && ListsOf(lru[k.kind := Unlink(lru[k.kind], x)]) == ListsOf(lru)[k.kind := Without(ListsOf(lru)[k.kind], k)]
  {
    var k := x.entry.key;
    var rest := Unlink(lru[k.kind], x);
    UnlinkAll(lru[k.kind], x);
    SiftDistinct(Entries(lru[k.kind]), At(k));
    ListsOfUpdate(lru, k.kind, rest);
    var after := lru[k.kind := rest];
    forall kind: Kind | kind < KINDS ensures Distinct(Entries(after[kind])) {
      assert Distinct(Entries(lru[kind]));
    }
    UnlinkLinks(items, lru, after, x);
  }

  lemma LinkKeeps<V(!new)>(items: map<Key, Element<V>>, lru: seq<seq<Element<V>>>, x: Element<V>)
    requires LinkedBy(items, lru) && x.entry.key !in items && x.entry.key.kind < KINDS
    ensures var k := x.entry.key;
      && LinkedBy(items[k := x], lru[k.kind := [x] + lru[k.kind]])
      && ListsOf(lru[k.kind := [x] + lru[k.kind]]) == ListsOf(lru)[k.kind := [x.entry] + ListsOf(lru)[k.kind]]
  {
    var k := x.entry.key;
    var es := Entries(lru[k.kind]);
    assert Entries([x] + lru[k.kind]) == [x.entry] + es;
    forall e | e in es ensures e.key != k {
      var i :| 0 <= i < |es| && es[i] == e;
      assert lru[k.kind][i] in lru[k.kind];
    }
    PrependDistinct(x.entry, es);
    ListsOfUpdate(lru, k.kind, [x] + lru[k.kind]);
    var after := lru[k.kind := [x] + lru[k.kind]];
    forall kind: Kind | kind < KINDS ensures Distinct(Entries(after[kind])) {
      assert Distinct(Entries(lru[kind]));
    }
  }

  class Cache<V(!new)> {
    var items: map<Key, Element<V>>
    var lru: seq<seq<Element<V>>>
    var limits: seq<int>
    var ttl: nat
    var revision: nat

    ghost predicate Linked()
      reads this
    {
      |limits| == KINDS && LinkedBy(items, lru)
    }

    ghost predicate Valid()
      reads this
    {
      Linked() && Model().Valid()
    }

    ghost function Model(): State<V>
      requires |lru| == KINDS && |limits| == KINDS
      reads this
    {
      State(ListsOf(lru), limits, ttl, revision)
    }

    constructor (config: Config)
      requires config.Valid()
      ensures Valid() && Model().revision == 0
      ensures Model().lists == [[], [], [], [], [], []]
      ensures Model().ttl == if config.ttl == 0 then 300_000_000_000 else config.ttl
      ensures forall kind: Kind :: kind < KINDS ==>
        (Model().Enabled(kind) <==> config.enabled && config.limits[kind] != -1) &&
        (Model().Enabled(kind) ==>
           Model().limits[kind] ==
           if config.limits[kind] == 0 then [2048, 256, 1024, 4096, 1024, 2048][kind] else config.limits[kind])
    {
      items := map[];
      lru := [[], [], [], [], [], []];
      ttl := if config.ttl == 0 then DEFAULT_TTL else config.ttl;
      revision := 0;
      limits := if config.enabled then seq(KINDS, i requires 0 <= i < KINDS && |config.limits| == KINDS =>
                  if config.limits[i] == 0 then DEFAULT_LIMITS[i] else config.limits[i])
                else [0, 0, 0, 0, 0, 0];
    }

    /** The map's view of a key is the model's. */
    lemma ItemsAreLookups(k: Key)
      requires Linked()
      ensures (k in items) == Model().Lookup(k).Some?
      ensures k in items ==> Model().Lookup(k) == Some(items[k].entry)
    {
      if k.kind < KINDS {
        var es := Entries(lru[k.kind]);
        if k in items {
          var i :| 0 <= i < |lru[k.kind]| && lru[k.kind][i] == items[k];
          assert es[i] == items[k].entry;
          FindIn(es, items[k].entry);
        }
        if Find(es, k).Some? {
          var i :| 0 <= i < |es| && es[i] == Find(es, k).value;
          assert lru[k.kind][i] in lru[k.kind];
        }
      }
    }

    lemma SweepBegins(drop: Entry<V> -> bool)
      requires Valid()
      ensures SiftAll(Model(), Swept(drop, items.Keys)) == Model()
    {
      forall k ensures (k in items) == Model().Lookup(k).Some? { ItemsAreLookups(k); }
      SweepStart(Model(), items.Keys, drop);
    }

    lemma ListBegins(matches: Key -> bool, now: nat)
      requires Valid()
      ensures Listed(Model(), [], matches, now, items.Keys)
    {
      forall e: Entry<V> ensures Model().Lookup(e.key) == Some(e) ==> e.key in items { ItemsAreLookups(e.key); }
    }

    method Remove(x: Element<V>)
      requires Linked() && x.entry.key in items && items[x.entry.key] == x
      modifies this
      ensures Linked() && Model() == Drop(old(Model()), x.entry.key)
      ensures items == old(items) - {x.entry.key}
    {
      var k := x.entry.key;
      UnlinkKeeps(items, lru, x);
      items := items - {k};
      lru := lru[k.kind := Unlink(lru[k.kind], x)];
    }

    method PushFront(x: Element<V>)
      requires Linked() && x.entry.key !in items && x.entry.key.kind < KINDS
      modifies this
      ensures Linked() && items == old(items)[x.entry.key := x]
      ensures Model() == var k := x.entry.key.kind; old(Model()).With(k, [x.entry] + old(Model()).lists[k])
    {
      var kind := x.entry.key.kind;
      LinkKeeps(items, lru, x);
      items := items[x.entry.key := x];
      lru := lru[kind := [x] + lru[kind]];
    }

    method RemoveBack(kind: Kind)
      requires Linked() && kind < KINDS && lru[kind] != []
      modifies this
      ensures Linked()
      ensures Model() == var es := old(Model()).lists[kind]; old(Model()).With(kind, es[..|es| - 1])
    {
      ghost var s, es := Model(), Entries(lru[kind]);
      var x := lru[kind][|lru[kind]| - 1];
      assert x in lru[kind];
      WithoutLast(es);
      assert Drop(s, x.entry.key) == s.With(kind, es[..|es| - 1]);
      Remove(x);
    }

    /** The list bounded again after an insertion. */
    method Bound(kind: Kind)
      requires Linked() && kind < KINDS
      modifies this
      ensures Linked()
      ensures Model() == var s := old(Model()); s.With(kind, Trim(s.lists[kind], s.limits[kind]))
    {
      ghost var s := Model();
      if |lru[kind]| > limits[kind] && lru[kind] != [] {
        RemoveBack(kind);
      } else {
        assert s.With(kind, s.lists[kind]).lists == s.lists;
      }
    }

    /** The element pushed in front of a list without its key, and the list bounded again. */
    method PushBounded(x: Element<V>)
      requires Linked() && x.entry.key !in items && x.entry.key.kind < KINDS
      modifies this
      ensures Linked() && Model() == Placed(old(Model()), x.entry)
    {
      ghost var s := Model();
      ItemsAreLookups(x.entry.key);
      WithoutShrinks(s.lists[x.entry.key.kind], x.entry.key);
      PushFront(x);
      Bound(x.entry.key.kind);
      assert Model().lists == Placed(s, x.entry).lists;
    }

    /** A new element for e, in place of the one that holds its key, if any. */
    method Replace(e: Entry<V>)
      requires Linked() && e.key.kind < KINDS
      modifies this
      ensures Linked() && Model() == Placed(old(Model()), e)
    {
      ghost var s := Model();
      assert s.lists[e.key.kind] == Entries(lru[e.key.kind]);
      PlacedAfterDrop(s, e);
      if e.key in items {
        Remove(items[e.key]);
      }
      var x := new Element<V>(e);
      PushBounded(x);
    }

    method Refused(k: Key, partial: bool, now: nat) returns (refused: bool)
      requires Valid()
      ensures refused == Refuses(Model(), k, partial, now)
    {
      ItemsAreLookups(k);
      if k.id == 0 || k.kind >= KINDS || limits[k.kind] <= 0 {
        return true;
      }
      if k in items {
        var was := items[k].entry;
        return partial && !was.partial && was.Live(now);
      }
      return false;
    }

    method Put(k: Key, value: V, partial: bool, now: nat)
      requires Valid()
      modifies this
      ensures Valid() && Model() == Apply(old(Model()), Op.Put(k, value, partial), now)
    {
      PutIs(Model(), k, value, partial, now);
      var refused := Refused(k, partial, now);
      if !refused {
        Replace(Entry(k, value, partial, now + ttl));
      }
    }

    method Read(k: Key, now: nat) returns (r: Option<Entry<V>>)
      requires Valid()
      modifies this
      ensures Valid()
      ensures r == var was := old(Model()).Lookup(k); if was.Some? && was.value.Live(now) then was else None
      ensures Model() == if old(Model()).Lookup(k).Some? && r.None? then Drop(old(Model()), k) else old(Model())
      ensures items == if old(Model()).Lookup(k).Some? && r.None? then old(items) - {k} else old(items)
    {
      ItemsAreLookups(k);
      DropKeeps(Model(), k);
      if k !in items {
        return None;
      }
      var x := items[k];
      if !x.entry.Live(now) {
        Remove(x);
        return None;
      }
      return Some(x.entry);
    }

    method Delete(k: Key)
      requires Valid()
      modifies this
      ensures Valid() && Model() == Apply(old(Model()), Op.Delete(k), 0)
    {
      ItemsAreLookups(k);
      DropKeeps(Model(), k);
      if k in items {
        Remove(items[k]);
      } else if k.kind < KINDS {
        ghost var es := Model().lists[k.kind];
        WithoutShrinks(es, k);
        assert Drop(Model(), k).lists == Model().lists;
      }
    }

    /** One iteration of DeleteWhere; todo are the keys still to come. */
    method Strike(ghost s: State<V>, ghost todo: set<Key>, k: Key, matches: Key -> bool)
      requires Linked() && s.Valid() && k in todo && todo <= items.Keys
      requires Model() == SiftAll(s, Swept(Matching(matches), todo))
      modifies this
      ensures Linked() && todo - {k} <= items.Keys
      ensures Model() == SiftAll(s, Swept(Matching(matches), todo - {k}))
    {
      ItemsAreLookups(k);
      SweepStep(s, todo, Matching(matches), k);
      if matches(k) {
        Remove(items[k]);
      }
    }

    method DeleteWhere(matches: Key -> bool)
      requires Valid()
      modifies this
      ensures Valid() && Model() == Apply(old(Model()), Op.DeleteWhere(matches), 0)
    {
      ghost var s := Model();
      assert Apply(s, Op.DeleteWhere(matches), 0) == SiftAll(s, Matching(matches));
      var todo := items.Keys;
      SweepBegins(Matching(matches));
      while todo != {}
        invariant Linked() && todo <= items.Keys
        invariant Model() == SiftAll(s, Swept(Matching(matches), todo))
        decreases todo
      {
        var k :| k in todo;
        Strike(s, todo, k, matches);
        todo := todo - {k};
      }
      SweepEnd(s, Matching(matches));
      SiftAllKeeps(s, Matching(matches));
    }

    /** One iteration of List; todo are the keys still to come. */
    method ReadIf(ghost s: State<V>, ghost todo: set<Key>, k: Key, matches: Key -> bool, now: nat)
      returns (r: Option<Entry<V>>)
      requires Valid() && s.Valid() && k in todo && todo <= items.Keys
      requires Model() == SiftAll(s, Swept(Stale(matches, now), todo))
      modifies this
      ensures Valid() && todo - {k} <= items.Keys
      ensures Model() == SiftAll(s, Swept(Stale(matches, now), todo - {k}))
      ensures s.Lookup(k).Some? && r == if matches(k) && s.Lookup(k).value.Live(now) then s.Lookup(k) else None
    {
      ItemsAreLookups(k);
      SweepStep(s, todo, Stale(matches, now), k);
      r := None;
      if matches(k) {
        r := Read(k, now);
      }
    }

    /** All live entries that match, each once, in no particular order. */
    method List(matches: Key -> bool, now: nat) returns (entries: seq<Entry<V>>)
      requires Valid()
      modifies this
      ensures Valid() && Model() == Act(old(Model()), Action.List(matches), now)
      ensures forall k :: var was := old(Model()).Lookup(k);
        Model().Lookup(k) == if matches(k) && was.Some? && !was.value.Live(now) then None else was
      ensures Distinct(entries)
      ensures forall e :: e in entries <==> old(Model()).Lookup(e.key) == Some(e) && matches(e.key) && e.Live(now)
    {
      ghost var s := Model();
      ghost var stale: Entry<V> -> bool := Stale(matches, now);
      assert Act(s, Action.List(matches), now) == SiftAll(s, stale);
      var todo := items.Keys;
      entries := [];
      SweepBegins(stale);
      ListBegins(matches, now);
      while todo != {}
        invariant Valid() && todo <= items.Keys
        invariant Model() == SiftAll(s, Swept(stale, todo))
        invariant Listed(s, entries, matches, now, todo)
        decreases todo
      {
        var k :| k in todo;
        var e := ReadIf(s, todo, k, matches, now);
        ListStep(s, entries, matches, now, todo, k);
        todo := todo - {k};
        if e.Some? {
          entries := entries + [e.value];
        }
      }
      SweepEnd(s, stale);
      SiftAllKeeps(s, stale);
    }

    method Get(k: Key, now: nat) returns (r: Option<Entry<V>>)
      requires Valid()
      modifies this
      ensures Valid() && Model() == Act(old(Model()), Action.Get(k), now)
      ensures forall j :: var was := old(Model()).Lookup(j);
        Model().Lookup(j) == if j == k && was.Some? && !was.value.Live(now) then None else was
      ensures r == var was := old(Model()).Lookup(k); if was.Some? && was.value.Live(now) then was else None
    {
      ghost var s := Model();
      ItemsAreLookups(k);
      ActValid(s, Action.Get(k), now);
      forall j: Key { ReadLookup(s, Action.Get(k), now, j); }
      r := Read(k, now);
      if r.Some? {
        assert Act(s, Action.Get(k), now) == s.With(k.kind, Touch(s.lists[k.kind], k));
        MoveToFront(items[k]);
      } else {
        assert Act(s, Action.Get(k), now) == if s.Lookup(k).Some? then Drop(s, k) else s;
      }
    }

    method MoveToFront(x: Element<V>)
      requires Linked() && x.entry.key in items && items[x.entry.key] == x
      modifies this
      ensures Linked()
      ensures Model() == var k, s := x.entry.key, old(Model()); s.With(k.kind, Touch(s.lists[k.kind], k))
    {
      var k := x.entry.key;
      ghost var s := Model();
      ghost var rest := Without(s.lists[k.kind], k);
      ItemsAreLookups(k);
      WithTwice(s, k.kind, rest, [x.entry] + rest);
      Remove(x);
      PushFront(x);
    }

    /** Read, transform, Put back under the same completeness. */
    method Edit(k: Key, edit: V -> V, now: nat)
      requires Valid()
      modifies this
      ensures Valid() && Model() == Apply(old(Model()), Op.Edit(k, edit), now)
    {
      ApplyLookup(Model(), Op.Edit(k, edit), now, k);
      var e := Read(k, now);
      if e.Some? {
        Put(k, edit(e.value.value), e.value.partial, now);
      }
    }

    /** A transform run by a writer, one step at a time. */
    method Perform(ops: seq<Op<V>>, now: nat)
      requires Valid()
      modifies this
      ensures Valid() && Model() == Exec(old(Model()), ops, now)
    {
      ghost var s := Model();
      for i := 0 to |ops|
        invariant Valid() && Exec(s, ops, now) == Exec(Model(), ops[i..], now)
      {
        match ops[i]
        case Put(k, value, partial) => Put(k, value, partial, now);
        case Delete(k) => Delete(k);
        case DeleteWhere(matches) => DeleteWhere(matches);
        case Edit(k, edit) => Edit(k, edit, now);
      }
    }

    method Bump()
      requires Valid()
      modifies this
      ensures Valid() && Model() == old(Model()).(revision := old(Model()).revision + 1)
    {
      RevisionIsFree(Model(), revision + 1);
      revision := revision + 1;
    }

    method Change(ops: seq<Op<V>>, now: nat)
      requires Valid()
      modifies this
      ensures Valid() && Model() == Act(old(Model()), Action.Change(ops), now)
    {
      Bump();
      Perform(ops, now);
    }

    method Accept(captured: nat, ops: seq<Op<V>>, now: nat)
      requires Valid()
      modifies this
      ensures Valid() && Model() == Act(old(Model()), Action.Accept(captured, ops), now)
    {
      if revision == captured {
        Perform(ops, now);
      }
    }

    method Mutate(captured: nat, ops: seq<Op<V>>, raced: seq<Op<V>>, now: nat)
      requires Valid()
      modifies this
      ensures Valid() && Model() == Act(old(Model()), Action.Mutate(captured, ops, raced), now)
    {
      var current := revision;
      Bump();
      if current == captured {
        Perform(ops, now);
      } else {
        Perform(raced, now);
      }
    }

    method Invalidate(matches: Key -> bool, now: nat)
      requires Valid()
      modifies this
      ensures Valid() && Model() == Act(old(Model()), Action.Change([Op.DeleteWhere(matches)]), now)
      ensures forall k :: Model().Lookup(k) == if matches(k) then None else old(Model()).Lookup(k)
      ensures Model().revision == old(Model()).revision + 1
    {
      ghost var s := Model();
      ghost var t := s.(revision := s.revision + 1);
      RevisionIsFree(s, s.revision + 1);
      SiftAllKeeps(t, Matching(matches));
      assert Exec(t, [Op.DeleteWhere(matches)], now) == SiftAll(t, Matching(matches));
      Change([Op.DeleteWhere(matches)], now);
    }

    method Clear(now: nat)
      requires Valid()
      modifies this
      ensures Valid() && forall kind: Kind :: kind < KINDS ==> Model().lists[kind] == []
      ensures Model().revision == old(Model()).revision + 1
    {
      Invalidate(k => true, now);
      forall kind: Kind | kind < KINDS ensures Model().lists[kind] == [] {
        var es := Model().lists[kind];
        if es != [] { ListedIsFound(Model(), kind, es[0]); }
      }
    }
  }
}
