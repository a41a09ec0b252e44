/** The cache as one recency list per kind, its atomic actions, and what every run of them keeps. */
module CacheModel {
  import opened Wrappers
  import opened EntityKeys
  import opened Recency

  function Max0(n: int): nat { if n < 0 then 0 else n }

  datatype State<V(!new)> = State(lists: seq<seq<Entry<V>>>, limits: seq<int>, ttl: nat, revision: nat) {
    predicate Shape() { |lists| == KINDS && |limits| == KINDS }

    ghost predicate ListOk(kind: Kind)
      requires Shape() && kind < KINDS
    {
      && Distinct(lists[kind])
      && |lists[kind]| <= Max0(limits[kind])
      && forall e :: e in lists[kind] ==> e.key.kind == kind && e.key.id != 0
    }

    ghost predicate Valid() {
      Shape() && forall kind: Kind :: kind < KINDS ==> ListOk(kind)
    }

    function Lookup(k: Key): Option<Entry<V>>
      requires Shape()
    {
      if k.kind < KINDS then Find(lists[k.kind], k) else None
    }

    predicate Enabled(kind: Kind)
      requires Shape()
    {
      kind < KINDS && limits[kind] > 0
    }

    function With(kind: Kind, es: seq<Entry<V>>): State<V>
      requires Shape() && kind < KINDS
    {
      this.(lists := lists[kind := es])
    }
  }

  /** One step of a program run by a writer that holds the cache's lock. */
  datatype Op<!V(!new)> =
    | Put(key: Key, value: V, partial: bool)
    | Delete(key: Key)
    | DeleteWhere(matches: Key -> bool)
    | Edit(key: Key, edit: V -> V) // Read, transform a clone, Put it back

  function Drop<V(!new)>(s: State<V>, k: Key): (r: State<V>)
    requires s.Shape()
    ensures r.Shape() && r.limits == s.limits && r.ttl == s.ttl && r.revision == s.revision
  {
    if k.kind < KINDS then s.With(k.kind, Without(s.lists[k.kind], k)) else s
  }

  function SiftAll<V(!new)>(s: State<V>, drop: Entry<V> -> bool): (r: State<V>)
    requires s.Shape()
    ensures r.Shape() && r.limits == s.limits && r.ttl == s.ttl && r.revision == s.revision
  {
    s.(lists := seq(KINDS, i requires 0 <= i < KINDS => Sift(s.lists[i], drop)))
  }

  predicate Refuses<V(!new)>(s: State<V>, k: Key, partial: bool, now: nat)
    requires s.Shape()
  {
    || k.id == 0
    || !s.Enabled(k.kind)
    || (var was := s.Lookup(k); partial && was.Some? && !was.value.partial && was.value.Live(now))
  }

  /** e stored in front of its list, at the cost of the last entry if the list overflows. */
  function Placed<V(!new)>(s: State<V>, e: Entry<V>): (r: State<V>)
    requires s.Shape() && e.key.kind < KINDS
    ensures r.Shape() && r.limits == s.limits && r.ttl == s.ttl && r.revision == s.revision
  {
    s.With(e.key.kind, Store(s.lists[e.key.kind], e, s.limits[e.key.kind]))
  }

  function Insert<V(!new)>(s: State<V>, k: Key, value: V, partial: bool, now: nat): (r: State<V>)
    requires s.Shape()
    ensures r.Shape() && r.limits == s.limits && r.ttl == s.ttl && r.revision == s.revision
  {
    if Refuses(s, k, partial, now) then s
    else Placed(s, Entry(k, value, partial, now + s.ttl))
  }

  function Apply<V(!new)>(s: State<V>, op: Op<V>, now: nat): (r: State<V>)
    requires s.Shape()
    ensures r.Shape() && r.limits == s.limits && r.ttl == s.ttl && r.revision == s.revision
  {
    match op
    case Put(k, value, partial) => Insert(s, k, value, partial, now)
    case Delete(k) => Drop(s, k)
    case DeleteWhere(matches) => SiftAll(s, Matching(matches))
    case Edit(k, edit) =>
      match s.Lookup(k)
      case None => s
      case Some(e) =>
        if e.Live(now) then Insert(s, k, edit(e.value), e.partial, now) else Drop(s, k)
  }

  function Exec<V(!new)>(s: State<V>, ops: seq<Op<V>>, now: nat): (r: State<V>)
    requires s.Shape()
    ensures r.Shape() && r.limits == s.limits && r.ttl == s.ttl && r.revision == s.revision
    decreases |ops|
  {
    if ops == [] then s else Exec(Apply(s, ops[0], now), ops[1..], now)
  }

  /** The critical sections of the cache. */
  datatype Action<!V(!new)> =
    | Change(ops: seq<Op<V>>)
    | Accept(captured: nat, ops: seq<Op<V>>)
    | Mutate(captured: nat, ops: seq<Op<V>>, raced: seq<Op<V>>)
    | Get(key: Key)
    | List(matches: Key -> bool)

  function Act<V(!new)>(s: State<V>, a: Action<V>, now: nat): (r: State<V>)
    requires s.Shape()
    ensures r.Shape() && r.limits == s.limits && r.ttl == s.ttl
    ensures r.revision == if a.Change? || a.Mutate? then s.revision + 1 else s.revision
  {
    match a
    case Change(ops) => Exec(s.(revision := s.revision + 1), ops, now)
    case Accept(captured, ops) => if s.revision == captured then Exec(s, ops, now) else s
    case Mutate(captured, ops, raced) =>
      Exec(s.(revision := s.revision + 1), if s.revision == captured then ops else raced, now)
    case Get(k) =>
      (match s.Lookup(k)
       case None => s
       case Some(e) => if e.Live(now) then s.With(k.kind, Touch(s.lists[k.kind], k)) else Drop(s, k))
    case List(matches) => SiftAll(s, Stale(matches, now))
  }

  datatype Timed<!V(!new)> = Timed(action: Action<V>, now: nat)

  function Run<V(!new)>(s: State<V>, trace: seq<Timed<V>>): (r: State<V>)
    requires s.Shape()
    ensures r.Shape() && r.limits == s.limits && r.ttl == s.ttl
  {
    if trace == [] then s
    else
      var last := trace[|trace| - 1];
      Act(Run(s, trace[..|trace| - 1]), last.action, last.now)
  }

  // ---------- Per-key meaning of a program, without the capacity bound ----------

  /** What op makes of the entry under k, were the kind's list unbounded. */
  function FateStep<V(!new)>(op: Op<V>, k: Key, was: Option<Entry<V>>, enabled: bool, expires: nat, now: nat)
    : Option<Entry<V>>
  {
    match op
    case Put(key, value, partial) =>
      if key != k || k.id == 0 || !enabled then was
      else if partial && was.Some? && !was.value.partial && was.value.Live(now) then was
      else Some(Entry(k, value, partial, expires))
    case Delete(key) => if key == k then None else was
    case DeleteWhere(matches) => if matches(k) then None else was
    case Edit(key, edit) =>
      if key != k || was.None? then was
      else if !was.value.Live(now) then None
      else Some(Entry(k, edit(was.value.value), was.value.partial, expires))
  }

  function Fate<V(!new)>(ops: seq<Op<V>>, k: Key, was: Option<Entry<V>>, enabled: bool, expires: nat, now: nat)
    : Option<Entry<V>>
    decreases |ops|
  {
    if ops == [] then was
    else Fate(ops[1..], k, FateStep(ops[0], k, was, enabled, expires, now), enabled, expires, now)
  }

  /** op gives up the least recently used entry, filed under k, to make room. */
  predicate Evicts<V(!new)>(s: State<V>, op: Op<V>, k: Key)
    requires s.Shape()
  {
    && op.Put? && op.key != k && op.key.kind == k.kind && s.Enabled(k.kind)
    && s.Lookup(op.key).None?
    && var es := s.lists[k.kind]; |es| == s.limits[k.kind] && es != [] && es[|es| - 1].key == k
  }

  lemma RevisionIsFree<V(!new)>(s: State<V>, revision: nat)
    requires s.Valid()
    ensures s.(revision := revision).Valid()
    ensures forall k :: s.(revision := revision).Lookup(k) == s.Lookup(k)
  {
    var t := s.(revision := revision);
    assert forall kind: Kind :: kind < KINDS && s.ListOk(kind) ==> t.ListOk(kind);
  }

  lemma ListedIsFound<V(!new)>(s: State<V>, kind: Kind, e: Entry<V>)
    requires s.Valid() && kind < KINDS && e in s.lists[kind]
    ensures s.Lookup(e.key) == Some(e)
  {
    assert s.ListOk(kind);
    FindIn(s.lists[kind], e);
  }

  lemma SiftAllKeeps<V(!new)>(s: State<V>, drop: Entry<V> -> bool)
    requires s.Valid()
    ensures SiftAll(s, drop).Valid()
    ensures forall k ::
      SiftAll(s, drop).Lookup(k) ==
      if s.Lookup(k).Some? && !drop(s.Lookup(k).value) then s.Lookup(k) else None
  {
    var r := SiftAll(s, drop);
    forall kind: Kind | kind < KINDS ensures r.ListOk(kind) {
      assert s.ListOk(kind);
      SiftDistinct(s.lists[kind], drop);
    }
    forall k: Key
      ensures r.Lookup(k) == if s.Lookup(k).Some? && !drop(s.Lookup(k).value) then s.Lookup(k) else None
    {
      if k.kind < KINDS {
        assert s.ListOk(k.kind);
        SiftFind(s.lists[k.kind], drop, k);
      }
    }
  }

  lemma DropKeeps<V(!new)>(s: State<V>, k: Key)
    requires s.Valid()
    ensures Drop(s, k).Valid()
    ensures forall j :: Drop(s, k).Lookup(j) == if j == k then None else s.Lookup(j)
  {
    if k.kind < KINDS {
      var r := Drop(s, k);
      assert s.ListOk(k.kind);
      SiftDistinct(s.lists[k.kind], At(k));
      forall kind: Kind | kind < KINDS ensures r.ListOk(kind) { assert s.ListOk(kind); }
      forall j: Key ensures r.Lookup(j) == if j == k then None else s.Lookup(j) {
        if j.kind == k.kind { SiftFind(s.lists[k.kind], At(k), j); }
      }
    }
  }

  lemma PlacedKeeps<V(!new)>(s: State<V>, e: Entry<V>)
    requires s.Valid() && e.key.id != 0 && s.Enabled(e.key.kind)
    ensures Placed(s, e).Valid()
  {
    var kind, r := e.key.kind, Placed(s, e);
    assert s.ListOk(kind);
    StoreKeeps(s.lists[kind], e, s.limits[kind]);
    forall x | x in r.lists[kind] ensures x.key.kind == kind && x.key.id != 0 {
      FindIn(r.lists[kind], x);
      assert x == e || Find(s.lists[kind], x.key) == Some(x);
    }
    forall other: Kind | other < KINDS ensures r.ListOk(other) { assert s.ListOk(other); }
  }

  lemma PutKeeps<V(!new)>(s: State<V>, op: Op<V>, now: nat)
    requires s.Valid() && op.Put? && !Refuses(s, op.key, op.partial, now)
    ensures Apply(s, op, now).Valid()
    ensures Apply(s, op, now).Lookup(op.key) == Some(Entry(op.key, op.value, op.partial, now + s.ttl))
    ensures forall j :: j != op.key ==>
      Apply(s, op, now).Lookup(j) == if Evicts(s, op, j) then None else s.Lookup(j)
  {
    var k := op.key;
    var e := Entry(k, op.value, op.partial, now + s.ttl);
    var r := Placed(s, e);
    assert s.ListOk(k.kind);
    PlacedKeeps(s, e);
    StoreKeeps(s.lists[k.kind], e, s.limits[k.kind]);
    forall j: Key | j != k
      ensures r.Lookup(j) == if Evicts(s, op, j) then None else s.Lookup(j)
    {
      if j.kind < KINDS && s.Lookup(j).Some? { assert s.ListOk(j.kind); }
    }
  }

  /** The refinement of the bounded cache to its per-key meaning: every entry has exactly the fate
      its key prescribes, except the one entry that an overflowing Put evicts. */
  lemma ApplyLookup<V(!new)>(s: State<V>, op: Op<V>, now: nat, k: Key)
    requires s.Valid()
    ensures Apply(s, op, now).Valid()
    ensures Apply(s, op, now).Lookup(k) ==
      if Evicts(s, op, k) && !Refuses(s, op.key, op.partial, now) then None
      else FateStep(op, k, s.Lookup(k), s.Enabled(k.kind), now + s.ttl, now)
  {
    match op
    case Put(key, value, partial) =>
      if !Refuses(s, key, partial, now) { PutKeeps(s, op, now); }
    case Delete(key) => DropKeeps(s, key);
    case DeleteWhere(matches) =>
      SiftAllKeeps(s, Matching(matches));
      if s.Lookup(k).Some? { assert s.Lookup(k).value.key == k; }
    case Edit(key, edit) =>
      var was := s.Lookup(key);
      if was.Some? {
        assert s.ListOk(key.kind);
        if was.value.Live(now) {
          PutKeeps(s, Put(key, edit(was.value.value), was.value.partial), now);
        } else {
          DropKeeps(s, key);
        }
      }
  }
}
