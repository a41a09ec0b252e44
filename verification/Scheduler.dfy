/** The rate scheduler: one slot reserved per call, at least an interval after the one before. */
module Scheduler {
  import opened Wrappers

  function Max(a: nat, b: nat): nat { if a < b then b else a }

  /** The slots of calls that reserve at the clock readings nows, one after the other. */
  function Slots(next: nat, interval: nat, nows: seq<nat>): (r: seq<nat>)
    ensures |r| == |nows|
    decreases |nows|
  {
    if nows == [] then []
    else
      var at := Max(next, nows[0]);
      [at] + Slots(at + interval, interval, nows[1..])
  }

  class Scheduler {
    const interval: int
    var next: nat // zero, before every clock reading, until the first reservation

    constructor (interval: int)
      ensures this.interval == interval && next == 0
    {
      this.interval := interval;
      next := 0;
    }

    /** The reservation of one call: now and later are its two clock readings. No slot without an
        interval; otherwise the call may go on at its slot, a delay after the later reading. */
    method Wait(now: nat, later: nat) returns (slot: Option<nat>, delay: int)
      modifies this
      ensures interval <= 0 ==> slot == None && delay == 0 && next == old(next)
      ensures interval > 0 ==> slot.Some? && delay == slot.value - later
      ensures interval > 0 ==> forall nows: seq<nat> ::
        Slots(old(next), interval, [now] + nows) == [slot.value] + Slots(next, interval, nows)
    {
      if interval <= 0 {
        return None, 0;
      }
      var at := next;
      if at < now {
        at := now;
      }
      next := at + interval;
      slot, delay := Some(at), at - later;
      assert forall nows: seq<nat> :: ([now] + nows)[1..] == nows;
    }
  }

  /** No slot is before its call or before the schedule's start, and each is at least an interval
      after the slots before it. */
  ghost predicate Feasible(next: nat, interval: nat, nows: seq<nat>, slots: seq<nat>) {
    && |slots| == |nows|
    && (forall i :: 0 <= i < |slots| ==> next <= slots[i] && nows[i] <= slots[i])
    && (forall i :: 0 <= i < |slots| - 1 ==> slots[i] + interval <= slots[i + 1])
  }

  lemma {:induction false} SlotsAreFeasible(next: nat, interval: nat, nows: seq<nat>)
    ensures Feasible(next, interval, nows, Slots(next, interval, nows))
    decreases |nows|
  {
    if nows != [] {
      var at := Max(next, nows[0]);
      SlotsAreFeasible(at + interval, interval, nows[1..]);
      var rest := Slots(at + interval, interval, nows[1..]);
      var slots := [at] + rest;
      forall i | 0 <= i < |slots| ensures next <= slots[i] && nows[i] <= slots[i] {
        if i > 0 { assert slots[i] == rest[i - 1] && nows[i] == nows[1..][i - 1]; }
      }
      forall i | 0 <= i < |slots| - 1 ensures slots[i] + interval <= slots[i + 1] {
        assert slots[i + 1] == rest[i];
        if i > 0 { assert slots[i] == rest[i - 1]; }
      }
    }
  }

  /** No call waits longer than it must: every other feasible schedule is nowhere earlier. */
  lemma {:induction false} SlotsAreEarliest(next: nat, interval: nat, nows: seq<nat>, others: seq<nat>, i: nat)
    requires Feasible(next, interval, nows, others) && i < |nows|
    ensures Slots(next, interval, nows)[i] <= others[i]
    decreases i
  {
    if i > 0 {
      var at := Max(next, nows[0]);
      var rest := others[1..];
      forall j | 0 <= j < |rest| - 1 ensures rest[j] + interval <= rest[j + 1] {
        assert others[j + 1] + interval <= others[j + 1 + 1];
      }
      forall j | 0 <= j < |rest| ensures at + interval <= rest[j] {
        Apart(others, interval, 0, j + 1);
        assert (j + 1) * interval >= interval by { assert j * interval >= 0; }
      }
      SlotsAreEarliest(at + interval, interval, nows[1..], rest, i - 1);
    }
  }

  /** Slots that are an interval apart one by one are so many intervals apart all together. */
  lemma {:induction false} Apart(slots: seq<nat>, interval: nat, i: nat, j: nat)
    requires forall m :: 0 <= m < |slots| - 1 ==> slots[m] + interval <= slots[m + 1]
    requires i <= j < |slots|
    ensures slots[i] + (j - i) * interval <= slots[j]
    decreases j
  {
    if i < j {
      Apart(slots, interval, i, j - 1);
      assert slots[j - 1] + interval <= slots[j - 1 + 1];
      assert (j - i) * interval == (j - 1 - i) * interval + interval;
    }
  }

  /** The calls whose slots lie in the closed window of the given length. */
  function InWindow(slots: seq<nat>, start: nat, length: nat): set<nat> {
    set i: nat | i < |slots| && start <= slots[i] <= start + length
  }

  lemma {:induction false} SmallSet(s: set<nat>, low: nat, n: nat)
    requires forall i :: i in s ==> low <= i < low + n
    ensures |s| <= n
  {
    if n > 0 {
      var last := low + n - 1;
      SmallSet(s - {last}, low, n - 1);
      assert |s| <= |s - {last}| + 1;
    }
  }

  lemma {:induction false} Least(s: set<nat>) returns (low: nat)
    requires s != {}
    ensures low in s && forall i :: i in s ==> low <= i
  {
    var some :| some in s;
    var others := s - {some};
    low := some;
    if others != {} {
      low := Least(others);
      if some < low { low := some; }
    }
    assert forall i :: i in s ==> i == some || i in others;
  }

  /** The rate bound: any closed window of a given length holds at most one slot more than the
      intervals that fit in it. */
  lemma WindowBound(next: nat, interval: nat, nows: seq<nat>, start: nat, length: nat)
    requires interval > 0
    ensures |InWindow(Slots(next, interval, nows), start, length)| <= length / interval + 1
  {
    var slots := Slots(next, interval, nows);
    var inside := InWindow(slots, start, length);
    SlotsAreFeasible(next, interval, nows);
    if inside != {} {
      var low := Least(inside);
      forall i | i in inside ensures low <= i < low + length / interval + 1 {
        Apart(slots, interval, low, i);
        Fits(i - low, interval, length);
      }
      SmallSet(inside, low, length / interval + 1);
    }
  }

  lemma Fits(n: nat, interval: nat, length: nat)
    requires interval > 0 && n * interval <= length
    ensures n <= length / interval
  {
    var most := length / interval;
    assert (n - most - 1) * interval < 0;
  }
}
