/** What programs and runs of the cache guarantee: their per-key fate, the fence that the revision
    puts between a read and the changes it raced, and the effect of a larger capacity. */
module CacheTheorems {
  import opened Wrappers
  import opened EntityKeys
  import opened Recency
  import opened CacheModel

  // ---------- Programs ----------

  lemma {:induction false} ExecConcat<V(!new)>(s: State<V>, a: seq<Op<V>>, b: seq<Op<V>>, now: nat)
    requires s.Shape()
    ensures Exec(s, a + b, now) == Exec(Exec(s, a, now), b, now)
    decreases |a|
  {
    if a == [] {
      assert a + b == b;
    } else {
      assert (a + b)[0] == a[0] && (a + b)[1..] == a[1..] + b;
      ExecConcat(Apply(s, a[0], now), a[1..], b, now);
    }
  }

  lemma {:induction false} ExecValid<V(!new)>(s: State<V>, ops: seq<Op<V>>, now: nat)
    requires s.Valid()
    ensures Exec(s, ops, now).Valid()
    decreases |ops|
  {
    if ops != [] {
      ApplyLookup(s, ops[0], now, Key(0, 0, 0, 0, 0));
      ExecValid(Apply(s, ops[0], now), ops[1..], now);
    }
  }

  predicate Removal<V(!new)>(op: Op<V>) { op.Delete? || op.DeleteWhere? }

  ghost predicate Removals<V(!new)>(ops: seq<Op<V>>) { forall op :: op in ops ==> Removal(op) }

  lemma RemovalSublist<V(!new)>(s: State<V>, op: Op<V>, now: nat, kind: Kind)
    requires s.Valid() && Removal(op) && kind < KINDS
    ensures Sublist(Apply(s, op, now).lists[kind], s.lists[kind])
  {
    SublistSelf(s.lists[kind]);
    match op
    case Delete(k) => SiftSublist(s.lists[kind], At(k));
    case DeleteWhere(matches) => SiftSublist(s.lists[kind], Matching(matches));
  }

  /** A removing program leaves a sublist of every list: survivors unchanged and in order. */
  lemma {:induction false} ExecRemovals<V(!new)>(s: State<V>, ops: seq<Op<V>>, now: nat)
    requires s.Valid() && Removals(ops)
    ensures Exec(s, ops, now).Valid()
    ensures forall kind: Kind :: kind < KINDS ==> Sublist(Exec(s, ops, now).lists[kind], s.lists[kind])
    ensures forall k :: Exec(s, ops, now).Lookup(k).Some? ==> Exec(s, ops, now).Lookup(k) == s.Lookup(k)
    decreases |ops|
  {
    var r := Exec(s, ops, now);
    if ops == [] {
      forall kind: Kind | kind < KINDS ensures Sublist(r.lists[kind], s.lists[kind]) {
        SublistSelf(s.lists[kind]);
      }
    } else {
      var t := Apply(s, ops[0], now);
      assert Removal(ops[0]);
      ApplyLookup(s, ops[0], now, Key(0, 0, 0, 0, 0));
      ExecRemovals(t, ops[1..], now);
      forall kind: Kind | kind < KINDS ensures Sublist(r.lists[kind], s.lists[kind]) {
        RemovalSublist(s, ops[0], now, kind);
        SublistTrans(r.lists[kind], t.lists[kind], s.lists[kind]);
      }
      forall k | r.Lookup(k).Some? ensures r.Lookup(k) == s.Lookup(k) { ApplyLookup(s, ops[0], now, k); }
    }
  }

  /** Whatever a program stores or rewrites satisfies p, if what it finds does. */
  ghost predicate Upholds<V(!new)>(op: Op<V>, p: Entry<V> -> bool) {
    match op
    case Put(k, v, partial) => forall x :: p(Entry(k, v, partial, x))
    case Edit(k, edit) => forall v, partial, x, y ::
      p(Entry(k, v, partial, x)) ==> p(Entry(k, edit(v), partial, y))
    case _ => true
  }

  ghost predicate Everywhere<V(!new)>(s: State<V>, p: Entry<V> -> bool)
    requires s.Shape()
  {
    forall k :: s.Lookup(k).Some? ==> p(s.Lookup(k).value)
  }

  lemma {:induction false} ExecUpholds<V(!new)>(s: State<V>, ops: seq<Op<V>>, now: nat, p: Entry<V> -> bool)
    requires s.Valid() && Everywhere(s, p) && forall op :: op in ops ==> Upholds(op, p)
    ensures Everywhere(Exec(s, ops, now), p)
    decreases |ops|
  {
    if ops != [] {
      var t := Apply(s, ops[0], now);
      assert Upholds(ops[0], p);
      forall k | t.Lookup(k).Some? ensures p(t.Lookup(k).value) {
        ApplyLookup(s, ops[0], now, k);
        var was := s.Lookup(k);
        if ops[0].Edit? && was.Some? {
          assert was.value == Entry(k, was.value.value, was.value.partial, was.value.expires);
        }
      }
      ApplyLookup(s, ops[0], now, Key(0, 0, 0, 0, 0));
      ExecUpholds(t, ops[1..], now, p);
    }
  }

  ghost predicate AllUphold<V(!new)>(ops: seq<Op<V>>, p: Entry<V> -> bool) {
    forall op :: op in ops ==> Upholds(op, p)
  }

  /** The program that the action would run in s upholds p. */
  ghost predicate ActionUpholds<V(!new)>(s: State<V>, a: Action<V>, p: Entry<V> -> bool) {
    match a
    case Change(ops) => AllUphold(ops, p)
    case Accept(captured, ops) => s.revision == captured ==> AllUphold(ops, p)
    case Mutate(captured, ops, raced) => AllUphold(if s.revision == captured then ops else raced, p)
    case _ => true
  }

  lemma ActUpholds<V(!new)>(s: State<V>, a: Action<V>, now: nat, p: Entry<V> -> bool)
    requires s.Valid() && Everywhere(s, p) && ActionUpholds(s, a, p)
    ensures Everywhere(Act(s, a, now), p)
  {
    var t := s.(revision := s.revision + 1);
    RevisionIsFree(s, s.revision + 1);
    match a
    case Change(ops) => ExecUpholds(t, ops, now, p);
    case Accept(captured, ops) => if s.revision == captured { ExecUpholds(s, ops, now, p); }
    case Mutate(captured, ops, raced) => ExecUpholds(t, if s.revision == captured then ops else raced, now, p);
    case Get(k) =>
      if s.Lookup(k).Some? {
        assert s.ListOk(k.kind);
        TouchKeeps(s.lists[k.kind], k);
        DropKeeps(s, k);
        var r := Act(s, a, now);
        assert forall j :: r.Lookup(j).Some? ==> r.Lookup(j) == s.Lookup(j);
      }
    case List(matches) => SiftAllKeeps(s, Stale(matches, now));
  }

  // ---------- Capacity and fate ----------

  function PutsOf<V(!new)>(ops: seq<Op<V>>, kind: Kind): nat {
    if ops == [] then 0
    else (if ops[0].Put? && ops[0].key.kind == kind then 1 else 0) + PutsOf(ops[1..], kind)
  }

  lemma ApplyGrowth<V(!new)>(s: State<V>, op: Op<V>, now: nat, kind: Kind)
    requires s.Valid() && kind < KINDS
    ensures |Apply(s, op, now).lists[kind]| <= |s.lists[kind]| + if op.Put? && op.key.kind == kind then 1 else 0
  {
    if op.Edit? && op.key.kind < KINDS {
      assert s.ListOk(op.key.kind);
      WithoutShrinks(s.lists[op.key.kind], op.key);
    }
  }

  /** With room for everything it stores, a program does to every key exactly what its fate says. */
  lemma {:induction false} ExecFate<V(!new)>(s: State<V>, ops: seq<Op<V>>, now: nat, k: Key)
    requires s.Valid()
    requires k.kind < KINDS ==> |s.lists[k.kind]| + PutsOf(ops, k.kind) <= Max0(s.limits[k.kind])
    ensures Exec(s, ops, now).Lookup(k) == Fate(ops, k, s.Lookup(k), s.Enabled(k.kind), now + s.ttl, now)
    decreases |ops|
  {
    if ops != [] {
      var t := Apply(s, ops[0], now);
      ApplyLookup(s, ops[0], now, k);
      if k.kind < KINDS { ApplyGrowth(s, ops[0], now, k.kind); }
      ExecFate(t, ops[1..], now, k);
    }
  }

  /** Without room, a program that stores only complete values still never files anything but its
      fate under a key: the bound can only lose entries, never falsify one. */
  lemma {:induction false} ExecLossy<V(!new)>(s: State<V>, ops: seq<Op<V>>, now: nat, k: Key, ideal: Option<Entry<V>>)
    requires s.Valid() && (s.Lookup(k).None? || s.Lookup(k) == ideal)
    requires forall op :: op in ops && op.Put? ==> !op.partial
    ensures var r := Exec(s, ops, now).Lookup(k);
      r.None? || r == Fate(ops, k, ideal, s.Enabled(k.kind), now + s.ttl, now)
    decreases |ops|
  {
    if ops != [] {
      ApplyLookup(s, ops[0], now, k);
      assert ops[0] in ops;
      ExecLossy(Apply(s, ops[0], now), ops[1..], now, k,
                FateStep(ops[0], k, ideal, s.Enabled(k.kind), now + s.ttl, now));
    }
  }

  /** A complete actual entry has a complete live ideal entry with its value behind it. */
  ghost predicate Backs<V(!new)>(ideal: Option<Entry<V>>, actual: Option<Entry<V>>, now: nat) {
    actual.Some? && !actual.value.partial ==>
      ideal.Some? && !ideal.value.partial && ideal.value.value == actual.value.value && ideal.value.Live(now)
  }

  /** Running on what is cached stays backed by the fate of what is ideally known: eviction, expiry and
      partial values can hide the ideal but not contradict it. */
  lemma {:induction false} ExecBacked<V(!new)>(s: State<V>, ops: seq<Op<V>>, now: nat, k: Key, ideal: Option<Entry<V>>)
    requires s.Valid() && Backs(ideal, s.Lookup(k), now)
    ensures Backs(Fate(ops, k, ideal, true, now + 1, now), Exec(s, ops, now).Lookup(k), now)
    decreases |ops|
  {
    if ops != [] {
      ApplyLookup(s, ops[0], now, k);
      if k.kind < KINDS { assert s.ListOk(k.kind); }
      ExecBacked(Apply(s, ops[0], now), ops[1..], now, k, FateStep(ops[0], k, ideal, true, now + 1, now));
    }
  }

  /** kind's list has room for all that the program stores. */
  predicate HasRoom<V(!new)>(s: State<V>, ops: seq<Op<V>>, kind: Kind)
    requires s.Shape()
  {
    kind < KINDS ==> |s.lists[kind]| + PutsOf(ops, kind) <= Max0(s.limits[kind])
  }

  // ---------- Actions ----------

  /** A read removes nothing but what has expired: List the expired matches, Get the expired entry under
      its key. Every other lookup stays what it was. */
  lemma ReadLookup<V(!new)>(s: State<V>, a: Action<V>, now: nat, k: Key)
    requires s.Valid() && (a.List? || a.Get?)
    ensures var was := s.Lookup(k);
      Act(s, a, now).Lookup(k) ==
      if (if a.List? then a.matches(k) else k == a.key) && was.Some? && was.value.expires <= now then None else was
  {
    match a
    case List(matches) => SiftAllKeeps(s, Stale(matches, now));
    case Get(j) =>
      if s.Lookup(j).Some? {
        assert s.ListOk(j.kind);
        TouchKeeps(s.lists[j.kind], j);
        DropKeeps(s, j);
      }
  }

  /** A Change runs its program, an Accept only at the revision it captured, and a Mutate the edit at that
      revision and the invalidation at any other; the first and the last advance the revision. */
  lemma CommitLookup<V(!new)>(s: State<V>, captured: nat, ops: seq<Op<V>>, raced: seq<Op<V>>, now: nat, k: Key)
    requires s.Valid() && HasRoom(s, ops, k.kind) && HasRoom(s, raced, k.kind)
    ensures var was, enabled, expires := s.Lookup(k), s.Enabled(k.kind), now + s.ttl;
      var change, accept, mutate := Act(s, Change(ops), now), Act(s, Accept(captured, ops), now),
                                    Act(s, Mutate(captured, ops, raced), now);
      && change.Lookup(k) == Fate(ops, k, was, enabled, expires, now)
      && accept.Lookup(k) == (if captured == s.revision then Fate(ops, k, was, enabled, expires, now) else was)
      && mutate.Lookup(k) == Fate(if captured == s.revision then ops else raced, k, was, enabled, expires, now)
      && change.revision == mutate.revision == s.revision + 1 && accept.revision == s.revision
  {
    var t := s.(revision := s.revision + 1);
    RevisionIsFree(s, s.revision + 1);
    ExecFate(s, ops, now, k);
    ExecFate(t, ops, now, k);
    ExecFate(t, raced, now, k);
  }

  /** What Put stores is found until its time to live has passed, and no longer. It stores nothing for
      id 0, for an unknown or disabled kind, or a partial value over a complete one that has not expired. */
  lemma PutIsFound<V(!new)>(s: State<V>, k: Key, v: V, partial: bool, now: nat, later: nat)
    requires s.Valid()
    ensures var was, t := s.Lookup(k), Apply(s, Put(k, v, partial), now);
      if k.id == 0 || k.kind >= KINDS || s.limits[k.kind] <= 0
         || (partial && was.Some? && !was.value.partial && now < was.value.expires)
      then t == s
      else
        && t.Lookup(k) == Some(Entry(k, v, partial, now + s.ttl))
        && (Act(t, Get(k), later).Lookup(k).Some? <==> later < now + s.ttl)
        && (forall j :: j != k && !Evicts(s, Put(k, v, partial), j) ==> t.Lookup(j) == s.Lookup(j))
  {
    var op: Op<V> := Put(k, v, partial);
    ApplyLookup(s, op, now, k);
    if !Refuses(s, k, partial, now) {
      PutKeeps(s, op, now);
      ReadLookup(Apply(s, op, now), Get(k), later, k);
    }
  }

  // ---------- Runs ----------

  lemma ActValid<V(!new)>(s: State<V>, a: Action<V>, now: nat)
    requires s.Valid()
    ensures Act(s, a, now).Valid()
  {
    var t := s.(revision := s.revision + 1);
    RevisionIsFree(s, s.revision + 1);
    match a
    case Change(ops) => ExecValid(t, ops, now);
    case Accept(captured, ops) => ExecValid(s, ops, now);
    case Mutate(captured, ops, raced) => ExecValid(t, ops, now); ExecValid(t, raced, now);
    case Get(k) =>
      var was := s.Lookup(k);
      if was.Some? {
        assert s.ListOk(k.kind);
        TouchKeeps(s.lists[k.kind], k);
        DropKeeps(s, k);
        var r := Act(s, a, now);
        forall kind: Kind | kind < KINDS ensures r.ListOk(kind) { assert s.ListOk(kind); }
      }
    case List(matches) => SiftAllKeeps(s, Stale(matches, now));
  }

  /** Every run keeps each list duplicate free, within its bound and of its own kind. */
  lemma {:induction false} RunValid<V(!new)>(s: State<V>, trace: seq<Timed<V>>)
    requires s.Valid()
    ensures Run(s, trace).Valid()
  {
    if trace != [] {
      var last := trace[|trace| - 1];
      RunValid(s, trace[..|trace| - 1]);
      ActValid(Run(s, trace[..|trace| - 1]), last.action, last.now);
    }
  }

  /** Reading never invents, alters or reorders: a List keeps a sublist of every list, and a Get
      besides moves a live entry, and only that one, to the front. */
  lemma ReadsKeepOrder<V(!new)>(s: State<V>, a: Action<V>, now: nat, kind: Kind)
    requires s.Valid() && kind < KINDS && (a.List? || a.Get?)
    ensures var before, after := s.lists[kind], Act(s, a, now).lists[kind];
      if a.Get? && a.key.kind == kind && Find(before, a.key).Some? && Find(before, a.key).value.Live(now)
      then |after| == |before| && after[0] == Find(before, a.key).value && Sublist(after[1..], before)
      else Sublist(after, before)
    ensures a.Get? && a.key.kind != kind ==> Act(s, a, now).lists[kind] == s.lists[kind]
  {
    SublistSelf(s.lists[kind]);
    match a
    case List(matches) => SiftSublist(s.lists[kind], Stale(matches, now));
    case Get(k) =>
      assert s.ListOk(kind);
      SiftSublist(s.lists[kind], At(k));
      WithoutShrinks(s.lists[kind], k);
      if k.kind == kind && Find(s.lists[kind], k).Some? {
        assert Touch(s.lists[kind], k)[1..] == Without(s.lists[kind], k);
      }
  }

  // ---------- The revision fence ----------

  predicate Commits<V(!new)>(a: Action<V>) { a.Change? || a.Mutate? }

  /** The action's own program runs, rather than nothing or the raced one. */
  predicate TakesEffect<V(!new)>(s: State<V>, a: Action<V>) {
    (a.Accept? || a.Mutate?) && a.captured == s.revision
  }

  function Before<V(!new)>(s: State<V>, trace: seq<Timed<V>>, i: nat): (r: State<V>)
    requires s.Shape() && i <= |trace|
    ensures r.Shape()
  {
    Run(s, trace[..i])
  }

  lemma {:induction false} RevisionGrows<V(!new)>(s: State<V>, trace: seq<Timed<V>>, i: nat, j: nat)
    requires s.Shape() && i <= j <= |trace|
    ensures Before(s, trace, i).revision <= Before(s, trace, j).revision
    ensures (exists m :: i <= m < j && Commits(trace[m].action)) ==>
      Before(s, trace, i).revision < Before(s, trace, j).revision
    decreases j
  {
    if i < j {
      RevisionGrows(s, trace, i, j - 1);
      assert trace[..j][..j - 1] == trace[..j - 1] && trace[..j][j - 1] == trace[j - 1];
    }
  }

  /** Nothing that captured its revision before a commit takes effect after it. */
  lemma RevisionFence<V(!new)>(s: State<V>, trace: seq<Timed<V>>, commit: nat, use: nat)
    requires s.Shape() && commit < use < |trace|
    requires Commits(trace[commit].action)
    requires trace[use].action.Accept? || trace[use].action.Mutate?
    requires trace[use].action.captured <= Before(s, trace, commit).revision
    ensures !TakesEffect(Before(s, trace, use), trace[use].action)
  {
    RevisionGrows(s, trace, commit, use);
  }

  /** Of all mutations racing from one captured revision, only the first can edit. */
  lemma AtMostOneEdits<V(!new)>(s: State<V>, trace: seq<Timed<V>>, i: nat, j: nat)
    requires s.Shape() && i < j < |trace| && trace[i].action.Mutate? && trace[j].action.Mutate?
    requires trace[i].action.captured == trace[j].action.captured
    requires TakesEffect(Before(s, trace, i), trace[i].action)
    ensures !TakesEffect(Before(s, trace, j), trace[j].action)
  {
    RevisionFence(s, trace, i, j);
  }

  // ---------- A larger capacity only keeps more ----------

  ghost predicate ListWithin<V(!new)>(small: seq<Entry<V>>, large: seq<Entry<V>>, n: int, m: int) {
    && n <= m
    && Sublist(small, large)
    && |large| - |small| <= Max0(m) - Max0(n)
  }

  /** small is what large becomes under smaller bounds: every list is a sublist, by no more than
      the bounds differ. */
  ghost predicate Within<V(!new)>(small: State<V>, large: State<V>)
    requires small.Shape() && large.Shape()
  {
    && small.ttl == large.ttl && small.revision == large.revision
    && forall kind: Kind :: kind < KINDS ==>
         ListWithin(small.lists[kind], large.lists[kind], small.limits[kind], large.limits[kind])
  }

  predicate Complete<V(!new)>(op: Op<V>) { op.Put? ==> !op.partial }

  ghost predicate CompleteAction<V(!new)>(a: Action<V>) {
    match a
    case Change(ops) => forall op :: op in ops ==> Complete(op)
    case Accept(_, ops) => forall op :: op in ops ==> Complete(op)
    case Mutate(_, ops, raced) => forall op :: op in ops + raced ==> Complete(op)
    case _ => true
  }

  lemma TrimWithin<V(!new)>(a: seq<Entry<V>>, b: seq<Entry<V>>, n: int, m: int)
    requires Sublist(a, b) && a != [] && 1 <= n <= m && |a| <= n + 1 && |b| <= m + 1 && |b| - |a| <= m - n
    ensures ListWithin(Trim(a, n), Trim(b, m), n, m)
  {
    SublistMembers(a, b);
    SublistTrim(a, b);
  }

  lemma StoreWithin<V(!new)>(a: seq<Entry<V>>, b: seq<Entry<V>>, e: Entry<V>, n: int, m: int)
    requires Distinct(a) && Distinct(b) && |a| <= n && |b| <= m && 1 <= n
    requires ListWithin(a, b, n, m)
    ensures ListWithin(Store(a, e, n), Store(b, e, m), n, m)
  {
    var a', b' := Without(a, e.key), Without(b, e.key);
    SublistMembers(a, b);
    SublistSift(a, b, At(e.key));
    WithoutShrinks(a, e.key);
    WithoutShrinks(b, e.key);
    if Find(a, e.key).Some? { FindIn(b, Find(a, e.key).value); }
    assert ([e] + a')[1..] == a' && ([e] + b')[1..] == b';
    TrimWithin([e] + a', [e] + b', n, m);
  }

  lemma SiftWithin<V(!new)>(a: seq<Entry<V>>, b: seq<Entry<V>>, drop: Entry<V> -> bool, n: int, m: int)
    requires ListWithin(a, b, n, m)
    ensures ListWithin(Sift(a, drop), Sift(b, drop), n, m)
  {
    SublistSift(a, b, drop);
    SiftSurplus(a, b, drop);
  }

  lemma {:induction false} SiftSurplus<V(!new)>(a: seq<Entry<V>>, b: seq<Entry<V>>, drop: Entry<V> -> bool)
    requires Sublist(a, b)
    ensures |Sift(b, drop)| - |Sift(a, drop)| <= |b| - |a|
    decreases |b|
  {
    if b != [] {
      if a == [] { SiftSurplus(a, b[1..], drop); }
      else if a[0] == b[0] { SiftSurplus(a[1..], b[1..], drop); }
      else { SiftSurplus(a, b[1..], drop); }
    }
  }

  lemma TouchWithin<V(!new)>(a: seq<Entry<V>>, b: seq<Entry<V>>, k: Key, n: int, m: int)
    requires Distinct(a) && Distinct(b) && ListWithin(a, b, n, m)
    ensures ListWithin(Touch(a, k), Touch(b, k), n, m)
  {
    SublistMembers(a, b);
    SublistSift(a, b, At(k));
    TouchKeeps(a, k);
    TouchKeeps(b, k);
    WithoutShrinks(a, k);
    var x, y := Find(a, k), Find(b, k);
    if x.Some? {
      FindIn(b, x.value);
      assert Touch(a, k)[1..] == Without(a, k) && Touch(b, k)[1..] == Without(b, k);
    } else if y.Some? {
      SublistWeaken(Without(a, k), Without(b, k), y.value);
    }
  }

  /** The same entry, or none in the smaller cache. */
  lemma LookupWithin<V(!new)>(small: State<V>, large: State<V>, k: Key)
    requires small.Valid() && large.Valid() && Within(small, large)
    ensures small.Lookup(k).Some? ==> large.Lookup(k) == small.Lookup(k)
  {
    if small.Lookup(k).Some? {
      assert small.ListOk(k.kind) && large.ListOk(k.kind);
      SublistMembers(small.lists[k.kind], large.lists[k.kind]);
      FindIn(large.lists[k.kind], small.Lookup(k).value);
    }
  }

  lemma DropWithin<V(!new)>(small: State<V>, large: State<V>, k: Key)
    requires small.Valid() && large.Valid() && Within(small, large)
    ensures Within(Drop(small, k), Drop(large, k))
    ensures small.Lookup(k).None? ==> Drop(small, k) == small
  {
    if k.kind < KINDS {
      assert small.ListOk(k.kind);
      SiftWithin(small.lists[k.kind], large.lists[k.kind], At(k), small.limits[k.kind], large.limits[k.kind]);
      WithoutShrinks(small.lists[k.kind], k);
    }
  }

  lemma RestoreWithin<V(!new)>(a: seq<Entry<V>>, b: seq<Entry<V>>, e: Entry<V>, n: int, m: int)
    requires Distinct(a) && Distinct(b) && |b| <= m && ListWithin(a, b, n, m)
    requires Find(a, e.key).None? && Find(b, e.key).Some?
    ensures ListWithin(a, Store(b, e, m), n, m)
  {
    SublistSift(a, b, At(e.key));
    WithoutShrinks(a, e.key);
    WithoutShrinks(b, e.key);
    SublistWeaken(a, Without(b, e.key), e);
  }

  lemma WithWithin<V(!new)>(small: State<V>, large: State<V>, kind: Kind, a: seq<Entry<V>>, b: seq<Entry<V>>)
    requires small.Shape() && large.Shape() && Within(small, large) && kind < KINDS
    requires ListWithin(a, b, small.limits[kind], large.limits[kind])
    ensures Within(small.With(kind, a), large.With(kind, b))
  {
  }

  lemma PlacedWithin<V(!new)>(small: State<V>, large: State<V>, e: Entry<V>)
    requires small.Valid() && large.Valid() && Within(small, large) && large.Enabled(e.key.kind)
    ensures Within(if small.Enabled(e.key.kind) then Placed(small, e) else small, Placed(large, e))
  {
    var kind := e.key.kind;
    assert small.ListOk(kind) && large.ListOk(kind);
    var a, b := small.lists[kind], large.lists[kind];
    var n, m := small.limits[kind], large.limits[kind];
    StoreKeeps(b, e, m);
    if n > 0 {
      StoreWithin(a, b, e, n, m);
      WithWithin(small, large, kind, Store(a, e, n), Store(b, e, m));
    } else {
      assert small.With(kind, a).lists == small.lists;
      WithWithin(small, large, kind, a, Store(b, e, m));
    }
  }

  lemma PutWithin<V(!new)>(small: State<V>, large: State<V>, op: Op<V>, now: nat)
    requires small.Valid() && large.Valid() && Within(small, large)
    requires op.Put? && !op.partial
    ensures Within(Apply(small, op, now), Apply(large, op, now))
  {
    var k := op.key;
    if k.id != 0 && large.Enabled(k.kind) {
      PlacedWithin(small, large, Entry(k, op.value, false, now + small.ttl));
    } else if k.kind < KINDS {
      assert small.limits[k.kind] <= large.limits[k.kind] by {
        assert ListWithin(small.lists[k.kind], large.lists[k.kind], small.limits[k.kind], large.limits[k.kind]);
      }
    }
  }

  lemma EditWithin<V(!new)>(small: State<V>, large: State<V>, op: Op<V>, now: nat)
    requires small.Valid() && large.Valid() && Within(small, large)
    requires op.Edit?
    ensures Within(Apply(small, op, now), Apply(large, op, now))
  {
    var k := op.key;
    LookupWithin(small, large, k);
    if large.Lookup(k).None? {
    } else if !large.Lookup(k).value.Live(now) {
      DropWithin(small, large, k);
    } else {
      EditLiveWithin(small, large, op, now);
    }
  }

  lemma EditLiveWithin<V(!new)>(small: State<V>, large: State<V>, op: Op<V>, now: nat)
    requires small.Valid() && large.Valid() && Within(small, large)
    requires op.Edit? && large.Lookup(op.key).Some? && large.Lookup(op.key).value.Live(now)
    requires small.Lookup(op.key).Some? ==> large.Lookup(op.key) == small.Lookup(op.key)
    ensures Within(Apply(small, op, now), Apply(large, op, now))
  {
    var kind := op.key.kind;
    var was := large.Lookup(op.key).value;
    assert small.ListOk(kind) && large.ListOk(kind);
    var e := Entry(op.key, op.edit(was.value), was.partial, now + small.ttl);
    var a, b, n, m := small.lists[kind], large.lists[kind], small.limits[kind], large.limits[kind];
    assert Apply(large, op, now) == large.With(kind, Store(b, e, m));
    if small.Lookup(op.key).Some? {
      StoreWithin(a, b, e, n, m);
      assert Apply(small, op, now) == small.With(kind, Store(a, e, n));
      WithWithin(small, large, kind, Store(a, e, n), Store(b, e, m));
    } else {
      RestoreWithin(a, b, e, n, m);
      assert Apply(small, op, now) == small.With(kind, a);
      WithWithin(small, large, kind, a, Store(b, e, m));
    }
  }

  lemma SiftAllWithin<V(!new)>(small: State<V>, large: State<V>, drop: Entry<V> -> bool)
    requires small.Valid() && large.Valid() && Within(small, large)
    ensures Within(SiftAll(small, drop), SiftAll(large, drop))
  {
    var s, t := SiftAll(small, drop), SiftAll(large, drop);
    forall kind: Kind | kind < KINDS
      ensures ListWithin(s.lists[kind], t.lists[kind], s.limits[kind], t.limits[kind])
    {
      SiftWithin(small.lists[kind], large.lists[kind], drop, small.limits[kind], large.limits[kind]);
    }
  }

  lemma {:induction false} ExecWithin<V(!new)>(small: State<V>, large: State<V>, ops: seq<Op<V>>, now: nat)
    requires small.Valid() && large.Valid() && Within(small, large)
    requires forall op :: op in ops ==> Complete(op)
    ensures Within(Exec(small, ops, now), Exec(large, ops, now))
    decreases |ops|
  {
    if ops != [] {
      var op := ops[0];
      assert op in ops;
      match op {
        case Put(_, _, _) => PutWithin(small, large, op, now);
        case Delete(k) => DropWithin(small, large, k);
        case DeleteWhere(matches) => SiftAllWithin(small, large, Matching(matches));
        case Edit(_, _) => EditWithin(small, large, op, now);
      }
      ApplyLookup(small, op, now, Key(0, 0, 0, 0, 0));
      ApplyLookup(large, op, now, Key(0, 0, 0, 0, 0));
      ExecWithin(Apply(small, op, now), Apply(large, op, now), ops[1..], now);
    }
  }

  lemma GetWithin<V(!new)>(small: State<V>, large: State<V>, k: Key, now: nat)
    requires small.Valid() && large.Valid() && Within(small, large)
    ensures Within(Act(small, Get(k), now), Act(large, Get(k), now))
  {
    LookupWithin(small, large, k);
    DropWithin(small, large, k);
    if k.kind < KINDS {
      assert small.ListOk(k.kind) && large.ListOk(k.kind);
      TouchWithin(small.lists[k.kind], large.lists[k.kind], k, small.limits[k.kind], large.limits[k.kind]);
      assert small.Lookup(k).None? ==> Touch(small.lists[k.kind], k) == small.lists[k.kind];
    }
  }

  lemma ActWithin<V(!new)>(small: State<V>, large: State<V>, a: Action<V>, now: nat)
    requires small.Valid() && large.Valid() && Within(small, large) && CompleteAction(a)
    ensures Within(Act(small, a, now), Act(large, a, now))
  {
    var s, t := small.(revision := small.revision + 1), large.(revision := large.revision + 1);
    RevisionIsFree(small, small.revision + 1);
    RevisionIsFree(large, large.revision + 1);
    match a
    case Change(ops) => ExecWithin(s, t, ops, now);
    case Accept(_, ops) => ExecWithin(small, large, ops, now);
    case Mutate(_, ops, raced) =>
      assert forall op :: op in ops || op in raced ==> op in ops + raced;
      ExecWithin(s, t, ops, now);
      ExecWithin(s, t, raced, now);
    case Get(k) => GetWithin(small, large, k, now);
    case List(matches) => SiftAllWithin(small, large, Stale(matches, now));
  }

  /** Two caches that differ only in their limits, fed the same actions at the same clock readings:
      the smaller one always holds a sublist of the larger one's entries, short of it by at most
      the difference of the limits. Partial values are excluded. */
  lemma {:induction false} CapacityOnlyKeepsMore<V(!new)>(small: State<V>, large: State<V>, trace: seq<Timed<V>>)
    requires small.Valid() && large.Valid() && Within(small, large)
    requires forall i :: 0 <= i < |trace| ==> CompleteAction(trace[i].action)
    ensures Within(Run(small, trace), Run(large, trace))
  {
    if trace != [] {
      var front, last := trace[..|trace| - 1], trace[|trace| - 1];
      CapacityOnlyKeepsMore(small, large, front);
      RunValid(small, front);
      RunValid(large, front);
      ActWithin(Run(small, front), Run(large, front), last.action, last.now);
    }
  }

  function Empty(users: int): (s: State<nat>)
    ensures s.Valid()
  {
    State(seq(KINDS, i => []), [users, 0, 0, 0, 0, 0], 10, 0)
  }

  const FIRST := Key(USER, 0, 0, 1, 0)
  const SECOND := Key(USER, 0, 0, 2, 0)

  function PartialOps(): seq<Op<nat>> { [Put(FIRST, 7, false), Put(SECOND, 8, false), Put(FIRST, 9, true)] }

  /** With partial values the claim fails: the larger cache refuses a partial value for a key it
      still knows completely, while the smaller one, which has forgotten the key, takes it. */
  lemma PartialValuesBreakContainment()
    ensures Within(Empty(1), Empty(2))
    ensures !Within(Act(Empty(1), Change(PartialOps()), 0), Act(Empty(2), Change(PartialOps()), 0))
  {
    var s, t := Act(Empty(1), Change(PartialOps()), 0), Act(Empty(2), Change(PartialOps()), 0);
    PartialFate(1);
    PartialFate(2);
    ActValid(Empty(1), Change(PartialOps()), 0);
    ActValid(Empty(2), Change(PartialOps()), 0);
    if Within(s, t) { LookupWithin(s, t, FIRST); }
  }

  lemma PartialFate(users: int)
    requires users == 1 || users == 2
    ensures var r := Act(Empty(users), Change(PartialOps()), 0).Lookup(FIRST);
      r.Some? && r.value.value == if users == 1 then 9 else 7
  {
    var s := Empty(users).(revision := 1);
    var ops := PartialOps();
    RevisionIsFree(Empty(users), 1);
    var e1, e2 := Entry(FIRST, 7, false, 10), Entry(SECOND, 8, false, 10);
    var a, b := Apply(s, ops[0], 0), Apply(Apply(s, ops[0], 0), ops[1], 0);
    assert Without([e1], SECOND) == [e1];
    assert a.lists[USER] == [e1];
    assert b.lists[USER] == if users == 1 then [e2] else [e2, e1];
    ApplyLookup(s, ops[0], 0, FIRST);
    ApplyLookup(a, ops[1], 0, FIRST);
    ApplyLookup(b, ops[2], 0, FIRST);
    assert Find([e2], FIRST) == None && Find([e2, e1], FIRST) == Some(e1) by { assert [e2, e1][1..] == [e1]; }
    assert ops[1..][1..] == ops[2..] && ops[2..][1..] == [];
    assert Exec(s, ops, 0) == Exec(a, ops[1..], 0) == Exec(b, ops[2..], 0) == Apply(b, ops[2], 0);
  }
}
