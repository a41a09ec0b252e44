/** The broker that correlates results with waiting calls by request id, updated in place. */
module RpcBroker {
  import opened Wrappers

  // Request ids are uint32 values.
  const SPAN: nat := 0x1_0000_0000

  datatype Outcome<R> = Result(result: R) | Error(error: string)

  const ERR_DISCONNECTED := "Osmium connection disconnected"

  /** The id drawn i-th after the counter stood at n. */
  function Draw(n: nat, i: nat): (id: nat)
    ensures id < SPAN
  {
    (n + i) % SPAN
  }

  predicate Free(pending: set<nat>, id: nat) { id != 0 && id !in pending }

  function Draws(n: nat, m: nat): (r: set<nat>)
    ensures forall x :: x in r <==> exists i :: 1 <= i <= m && Draw(n, i) == x
  {
    if m == 0 then {} else Draws(n, m - 1) + {Draw(n, m)}
  }

  lemma DrawsDiffer(n: nat, i: nat, j: nat)
    requires Draw(n, i) == Draw(n, j) && i < j
    ensures j - i >= SPAN
  {
    var p, q := n + i, n + j;
    assert p % SPAN == q % SPAN && p < q;
    assert q == SPAN * (q / SPAN) + q % SPAN && p == SPAN * (p / SPAN) + p % SPAN;
    assert q - p == SPAN * (q / SPAN - p / SPAN);
  }

  lemma {:induction false} DrawsCount(n: nat, m: nat)
    requires m <= SPAN
    ensures |Draws(n, m)| == m
  {
    if m > 0 {
      DrawsCount(n, m - 1);
      if Draw(n, m) in Draws(n, m - 1) {
        var i :| 1 <= i <= m - 1 && Draw(n, i) == Draw(n, m);
        DrawsDiffer(n, i, m);
      }
    }
  }

  /** Pigeonhole: of |pending| + 2 consecutive draws one is free, unless every id is pending. */
  lemma SomeDrawIsFree(n: nat, pending: set<nat>)
    requires |pending| < SPAN - 1
    ensures exists i :: 1 <= i <= |pending| + 2 && Free(pending, Draw(n, i))
  {
    var m := |pending| + 2;
    if forall i :: 1 <= i <= m ==> !Free(pending, Draw(n, i)) {
      DrawsCount(n, m);
      assert Draws(n, m) <= pending + {0};
      SubsetCount(Draws(n, m), pending + {0});
    }
  }

  lemma {:induction false} BoundedCount(ids: set<nat>, m: nat)
    requires forall x :: x in ids ==> 0 < x <= m
    ensures |ids| <= m
  {
    if m > 0 { BoundedCount(ids - {m}, m - 1); }
  }

  /** Some draw ever succeeds exactly when fewer than 2^32 - 1 calls are pending. */
  lemma SomeDrawIsFreeIff(n: nat, pending: set<nat>)
    requires forall x :: x in pending ==> 0 < x < SPAN
    ensures (exists i :: 1 <= i && Free(pending, Draw(n, i))) <==> |pending| < SPAN - 1
  {
    if |pending| < SPAN - 1 {
      SomeDrawIsFree(n, pending);
    }
    if i :| 1 <= i && Free(pending, Draw(n, i)) {
      BoundedCount(pending + {Draw(n, i)}, SPAN - 1);
    }
  }

  /** The failing input: with every id pending, which are the 2^32 - 1 ids that the bound excludes, no
      draw is ever free, so a registration never ends. */
  lemma NoDrawIsFree(n: nat, pending: set<nat>)
    requires forall id :: id in pending <==> 0 < id < SPAN
    ensures forall i: nat :: !Free(pending, Draw(n, i))
    ensures |pending| == SPAN - 1
  {
    SomeDrawIsFreeIff(n, pending);
    BoundedCount(pending, SPAN - 1);
  }

  lemma NextDraw(n: nat, i: nat)
    ensures (Draw(n, i) + 1) % SPAN == Draw(n, i + 1)
    ensures Draw(n, i) == 0 ==> Draw(n, i + 1) == 1
  {
    var x := n + i;
    assert x == SPAN * (x / SPAN) + x % SPAN;
    if x % SPAN == SPAN - 1 {
      assert x + 1 == SPAN * (x / SPAN + 1);
    }
  }

  /** One waiting call; done is its channel, of capacity one. */
  class Call<R> {
    var done: seq<Outcome<R>>

    constructor ()
      ensures done == []
    {
      done := [];
    }
  }

  class Broker<R> {
    var nextId: nat
    var pending: map<nat, Call<R>>
    var closed: bool

    /** Pending calls are distinct, have real ids, and have been sent nothing. */
    ghost predicate Valid()
      reads this, pending.Values
    {
      && nextId < SPAN
      && (closed ==> pending == map[])
      && (forall id :: id in pending ==> 0 < id < SPAN && pending[id].done == [])
      && (forall i, j :: i in pending && j in pending && i != j ==> pending[i] != pending[j])
    }

    constructor ()
      ensures Valid() && !closed && pending == map[] && nextId == 0
    {
      nextId, pending, closed := 0, map[], false;
    }

    /** The first free id in drawing order; at most |pending| + 2 draws. None is ErrBrokerClosed. */
    method Register() returns (r: Option<(nat, Call<R>)>, ghost draws: nat)
      requires Valid()
      requires closed || |pending| < SPAN - 1
      modifies this
      ensures Valid() && closed == old(closed)
      ensures 1 <= draws <= old(|pending|) + 2 && nextId == Draw(old(nextId), draws)
      ensures r.None? == old(closed)
      ensures r.None? ==> pending == old(pending)
      ensures r.Some? ==>
        var (id, call) := r.value;
        && fresh(call) && call.done == [] && id == nextId
        && Free(old(pending).Keys, id) && pending == old(pending)[id := call]
        && forall i :: 1 <= i < draws ==> !Free(old(pending).Keys, Draw(old(nextId), i))
    {
      draws := 0;
      ghost var n := nextId;
      if !closed { SomeDrawIsFree(n, pending.Keys); }
      while true
        invariant nextId == Draw(n, draws) && pending == old(pending) && closed == old(closed)
        invariant forall i :: 1 <= i <= draws ==> !Free(pending.Keys, Draw(n, i))
        invariant closed ==> draws <= 1 && (draws == 1 ==> nextId == 0)
        invariant !closed ==> exists i :: draws < i <= |pending| + 2 && Free(pending.Keys, Draw(n, i))
        decreases |pending| + 2 - draws
      {
        NextDraw(n, draws);
        nextId := (nextId + 1) % SPAN;
        draws := draws + 1;
        var id := nextId;
        if id == 0 {
          continue;
        }
        if closed {
          return None, draws;
        }
        if id in pending {
          continue;
        }
        var call := new Call<R>();
        pending := pending[id := call];
        return Some((id, call)), draws;
      }
    }

    /** The pending call with the result's id gets the result; a late or unknown result changes nothing. */
    method Resolve(id: nat, result: R) returns (ok: bool)
      requires Valid()
      modifies this, pending.Values
      ensures Valid() && closed == old(closed) && nextId == old(nextId)
      ensures ok == (id in old(pending)) && pending == old(pending) - {id}
      ensures forall c :: c in old(pending).Values ==>
        c.done == if ok && c == old(pending)[id] then [Result(result)] else []
    {
      if id !in pending {
        return false;
      }
      var call := pending[id];
      pending := pending - {id};
      call.done := call.done + [Result(result)];
      return true;
    }

    /** Only the call itself, if one is named, is forgotten. */
    method Cancel(id: nat, call: Call?<R>) returns (ok: bool)
      requires Valid()
      modifies this
      ensures Valid() && closed == old(closed) && nextId == old(nextId)
      ensures ok <==> id in old(pending) && (call == null || old(pending)[id] == call)
      ensures pending == if ok then old(pending) - {id} else old(pending)
    {
      if id !in pending || (call != null && pending[id] != call) {
        return false;
      }
      pending := pending - {id};
      return true;
    }

    /** The first FailAll closes the broker and gives every pending call exactly the error. */
    method FailAll(err: Option<string>)
      requires Valid()
      modifies this, pending.Values
      ensures Valid() && closed && pending == map[] && nextId == old(nextId)
      ensures forall c :: c in old(pending).Values ==>
        c.done == [Error(if err.None? then ERR_DISCONNECTED else err.value)]
    {
      var error := if err.None? then ERR_DISCONNECTED else err.value;
      if closed {
        return;
      }
      closed := true;
      var calls := pending.Values;
      pending := map[];
      while calls != {}
        invariant calls <= old(pending).Values && Valid() && closed && pending == map[] && nextId == old(nextId)
        invariant forall c :: c in old(pending).Values ==> c.done == if c in calls then [] else [Error(error)]
        decreases calls
      {
        var call :| call in calls;
        calls := calls - {call};
        call.done := call.done + [Error(error)];
      }
    }
  }
}
