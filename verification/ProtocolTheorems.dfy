/** What holds over every run of the protocol: connections are isolated, reads are shared only within
    one revision, and the provenance marks do not influence the cache. */
module ProtocolTheorems {
  import opened Wrappers
  import opened EntityKeys
  import opened Recency
  import opened CacheModel
  import opened CacheTheorems
  import opened Projection
  import opened FlightKeys
  import opened Protocol

  type Sys = Protocol.State

  ghost predicate IsRun(states: seq<Sys>, steps: seq<Step>) {
    && |states| == |steps| + 1
    && Inv(states[0]) && (forall c :: 0 <= c < |states[0].calls| ==> Keyed(states[0].calls[c]))
    && forall i {:trigger steps[i]} :: 0 <= i < |steps| ==>
         && states[i].cache.Shape() && Enabled(states[i], steps[i])
         && states[i + 1] == Next(states[i], steps[i])
  }

  lemma {:induction false} RunKeepsInv(states: seq<Sys>, steps: seq<Step>, i: nat)
    requires IsRun(states, steps) && i < |states|
    ensures Inv(states[i])
  {
    if i > 0 {
      var k := i - 1;
      RunKeepsInv(states, steps, k);
      NextKeepsInv(states[k], steps[k]);
    }
  }

  /** What no step undoes. */
  ghost predicate Onward(s: Sys, t: Sys) {
    && s.cache.revision <= t.cache.revision
    && CallsGoOn(s.calls, t.calls, s.cache.revision)
    && ConnsGoOn(s.conns, t.conns)
  }

  predicate SameCall(c: Call, d: Call) {
    d.request == c.request && d.captured == c.captured && d.key == c.key
  }

  ghost predicate CallsGoOn(a: seq<Call>, b: seq<Call>, revision: nat) {
    && |a| <= |b|
    && (forall c :: 0 <= c < |a| ==> SameCall(a[c], b[c]))
    && (forall c :: |a| <= c < |b| ==> revision <= b[c].captured && Keyed(b[c]))
  }

  ghost predicate ConnsGoOn(a: seq<Conn>, b: seq<Conn>) {
    && |a| <= |b|
    && (forall e :: 0 <= e < |a| ==> a[e].stage.Rank() <= b[e].stage.Rank() && (a[e].closed ==> b[e].closed))
  }

  lemma OnwardTrans(s: Sys, t: Sys, u: Sys)
    requires Onward(s, t) && Onward(t, u)
    ensures Onward(s, u)
  {
  }

  predicate OfCalls(step: Step) { step.Begin? || step.Refuse? || step.Bind? || step.Abandon? }

  predicate OfFlights(step: Step) { step.EnterFlights? || step.Land? || step.Join? || step.StopWaiting? }

  predicate OfConns(step: Step) { step.Register? || step.Resolve? || step.Dial? || step.FailAll? || step.StopReader? }

  lemma CallStepsGoOn(s: Sys, step: Step)
    requires s.cache.Shape() && Enabled(s, step) && OfCalls(step)
    ensures Onward(s, Next(s, step))
  {
    var t := Next(s, step);
    assert t.cache == s.cache;
    assert CallsGoOn(s.calls, t.calls, s.cache.revision);
    if step.Abandon? { CancelGoesOn(s, step.call); } else { assert t.conns == s.conns; }
  }

  lemma FlightStepsGoOn(s: Sys, step: Step)
    requires s.cache.Shape() && Enabled(s, step) && OfFlights(step)
    ensures Onward(s, Next(s, step))
  {
    var t := Next(s, step);
    assert t.cache == s.cache && t.conns == s.conns;
  }

  lemma CancelGoesOn(s: Sys, c: nat)
    requires c < |s.calls|
    ensures ConnsGoOn(s.conns, Cancel(s, c).conns)
  {
  }

  lemma ConnStepsGoOn(s: Sys, step: Step)
    requires s.cache.Shape() && Enabled(s, step) && OfConns(step)
    ensures Onward(s, Next(s, step))
  {
  }

  lemma CacheStepsGoOn(s: Sys, step: Step)
    requires s.cache.Shape() && Enabled(s, step)
    requires !OfConns(step) && !OfCalls(step) && !OfFlights(step) && !step.Cleanup?
    ensures Onward(s, Next(s, step))
  {
  }

  lemma StageGoesOn(s: Sys, e: nat, stage: Stage)
    requires e < |s.conns| && s.conns[e].stage.Rank() <= stage.Rank()
    ensures Onward(s, SetStage(s, e, stage))
  {
  }

  lemma CleanupGoesOn(s: Sys, step: Step)
    requires s.cache.Shape() && Enabled(s, step) && step.Cleanup?
    ensures Onward(s, Next(s, step))
  {
    var e, stage := step.conn, s.conns[step.conn].stage;
    if stage.Cancelled? {
      var u := Next(s, FailAll(e, "disconnected"));
      ConnStepsGoOn(s, FailAll(e, "disconnected"));
      StageGoesOn(u, e, BrokerClosed);
      OnwardTrans(s, u, Next(s, step));
    } else if stage.ReaderJoined? {
      StageGoesOn(s.(cache := Act(s.cache, ClearAll(), step.now)), e, CacheCleared);
    } else if stage.CacheCleared? {
      StageGoesOn(if s.active == Some(e) then s.(active := None) else s, e, Detached);
    } else {
      StageGoesOn(s, e, if stage.Live? then Cancelled else if stage.BrokerClosed? then SocketClosed else ReaderJoined);
    }
  }

  lemma NextGoesOn(s: Sys, step: Step)
    requires s.cache.Shape() && Enabled(s, step)
    ensures Onward(s, Next(s, step))
  {
    if OfCalls(step) { CallStepsGoOn(s, step); }
    else if OfFlights(step) { FlightStepsGoOn(s, step); }
    else if OfConns(step) { ConnStepsGoOn(s, step); }
    else if step.Cleanup? { CleanupGoesOn(s, step); }
    else { CacheStepsGoOn(s, step); }
  }

  lemma StepGoesOn(states: seq<Sys>, steps: seq<Step>, i: nat)
    requires IsRun(states, steps) && i < |steps|
    ensures Onward(states[i], states[i + 1])
  {
    NextGoesOn(states[i], steps[i]);
  }

  lemma {:induction false} ChainsGoOn(states: seq<Sys>, i: nat, j: nat)
    requires i <= j < |states| && forall m {:trigger states[m]} :: i < m <= j ==> Onward(states[m - 1], states[m])
    ensures Onward(states[i], states[j])
    decreases j
  {
    if i == j {
      OnwardSelf(states[i]);
    } else {
      ChainsGoOn(states, i, j - 1);
      OnwardTrans(states[i], states[j - 1], states[j]);
    }
  }

  lemma RunsGoOn(states: seq<Sys>, steps: seq<Step>, i: nat, j: nat)
    requires IsRun(states, steps) && i <= j < |states|
    ensures Onward(states[i], states[j])
  {
    forall m | i < m <= j ensures Onward(states[m - 1], states[m]) { StepGoesOn(states, steps, m - 1); }
    ChainsGoOn(states, i, j);
  }

  lemma OnwardSelf(s: Sys)
    ensures Onward(s, s)
  {
  }

  // ---------- Connection isolation ----------

  /** Once the cleanup of a connection has cleared the cache, no entry ever cached came from a result
      or an update of that connection, whatever was in flight and whatever starts later. */
  lemma ConnectionIsolation(states: seq<Sys>, steps: seq<Step>, cleared: nat, later: nat, e: nat, k: Key)
    requires IsRun(states, steps) && cleared <= later < |states|
    requires e < |states[cleared].conns| && states[cleared].conns[e].stage in {CacheCleared, Detached}
    requires states[later].cache.Shape() && states[later].cache.Lookup(k).Some?
    ensures e !in states[later].cache.Lookup(k).value.value.origins
  {
    RunsGoOn(states, steps, cleared, later);
    RunKeepsInv(states, steps, later);
    ClearedIsAbsent(states[cleared], states[later], e, k);
  }

  lemma ClearedIsAbsent(s: Sys, t: Sys, e: nat, k: Key)
    requires Onward(s, t) && Inv(t) && e < |s.conns| && s.conns[e].stage.Rank() >= 5 && t.cache.Lookup(k).Some?
    ensures e !in t.cache.Lookup(k).value.value.origins
  {
    assert Everywhere(t.cache, FreeOf(e));
  }

  /** A call of a closed connection never becomes pending again, and a broker once closed stays empty. */
  lemma ClosedBrokersStayEmpty(states: seq<Sys>, steps: seq<Step>, closed: nat, later: nat, e: nat, c: nat)
    requires IsRun(states, steps) && closed <= later < |states|
    requires e < |states[closed].conns| && states[closed].conns[e].closed && c < |states[later].calls|
    ensures e < |states[later].conns| && states[later].conns[e].pending == map[]
    ensures !(states[later].calls[c].phase.Waiting? && states[later].calls[c].phase.conn == e)
  {
    RunsGoOn(states, steps, closed, later);
    RunKeepsInv(states, steps, later);
    assert ConnOk(states[later], e) && CallOk(states[later], c);
  }

  /** A connection whose teardown is over is never the active one again, so no call is bound to it. */
  lemma DetachedStaysInactive(states: seq<Sys>, steps: seq<Step>, detached: nat, later: nat, e: nat)
    requires IsRun(states, steps) && detached <= later < |states|
    requires e < |states[detached].conns| && states[detached].conns[e].stage.Detached?
    ensures states[later].active != Some(e)
  {
    RunsGoOn(states, steps, detached, later);
    RunKeepsInv(states, steps, later);
  }

  // ---------- Single flight ----------

  /** At most one unreturned call leads for a key, at most 256 flights are tracked, and every call that
      followed makes the same request as its leader at the same captured revision, and once it has
      returned, returns the outcome its leader returned. */
  lemma SingleFlight(states: seq<Sys>, steps: seq<Step>, i: nat, c: nat, d: nat)
    requires IsRun(states, steps) && i < |states| && c < |states[i].calls| && d < |states[i].calls|
    ensures |states[i].flights| <= 256
    ensures var p, q := states[i].calls[c], states[i].calls[d];
      && (p.leads && q.leads && !p.phase.Returned? && !q.phase.Returned? && p.key == q.key ==> c == d)
      && (p.followed == Some(d) ==>
            && q.leads && p.request == q.request && p.captured == q.captured
            && (p.phase.Returned? ==> q.phase == p.phase))
  {
    var s := states[i];
    RunKeepsInv(states, steps, i);
    RunsGoOn(states, steps, 0, i);
    assert CallOk(s, c) && CallOk(s, d);
    assert forall b :: 0 <= b < |states[0].calls| ==> SameCall(states[0].calls[b], s.calls[b]);
    assert Keyed(s.calls[c]) && Keyed(s.calls[d]);
    var p, q := s.calls[c], s.calls[d];
    if p.followed == Some(d) {
      SharedReadsAreEqual(p.request, p.captured, q.request, q.captured);
    }
  }

  lemma LandingLeader(s: Sys, c: nat, k: string)
    requires Inv(s) && Enabled(s, Land(c)) && s.calls[c].leads
    ensures s.calls[c].key in s.flights && s.flights[s.calls[c].key] == c
    ensures k in Next(s, Land(c)).flights <==> k in s.flights && s.flights[k] != c
    ensures k in Next(s, Land(c)).flights ==> Next(s, Land(c)).flights[k] == s.flights[k]
  {
    assert CallOk(s, c);
  }

  /** In every run a leader that lands finds its key mapped to its own flight, and only that mapping goes. */
  lemma LeaderRemovesOwnFlight(states: seq<Sys>, steps: seq<Step>, i: nat, k: string)
    requires IsRun(states, steps) && i < |steps| && steps[i].Land?
    requires steps[i].call < |states[i].calls| && states[i].calls[steps[i].call].leads
    ensures var s, t, c := states[i], states[i + 1], steps[i].call;
      && s.calls[c].key in s.flights && s.flights[s.calls[c].key] == c
      && (k in t.flights <==> k in s.flights && s.flights[k] != c)
      && (k in t.flights ==> t.flights[k] == s.flights[k])
  {
    RunKeepsInv(states, steps, i);
    LandingLeader(states[i], steps[i].call, k);
  }

  /** A call that starts after the revision moved, by an update, a mutation, an invalidation, an
      authorization or the clearing for a connection, never shares the response of a call that started
      before. */
  lemma EventSeparatesReads(states: seq<Sys>, steps: seq<Step>, event: nat, later: nat, before: nat, after: nat)
    requires IsRun(states, steps) && event < later < |states|
    requires states[event].cache.revision < states[event + 1].cache.revision
    requires before < |states[event].calls| && |states[event].calls| <= after < |states[later].calls|
    ensures states[later].calls[after].followed != Some(before)
  {
    RunKeepsInv(states, steps, event);
    RunsGoOn(states, steps, event, event + 1);
    RunsGoOn(states, steps, event + 1, later);
    BumpAddsNoCall(states[event], steps[event]);
    assert CallOk(states[event], before);
    if states[later].calls[after].followed == Some(before) {
      SingleFlight(states, steps, later, after, before);
    }
  }

  lemma BumpAddsNoCall(s: Sys, step: Step)
    requires s.cache.Shape() && Enabled(s, step)
    ensures Next(s, step).cache.revision > s.cache.revision ==> |Next(s, step).calls| == |s.calls|
  {
  }

  // ---------- The provenance marks are invisible ----------

  function Bare(e: Entry<Traced>): Entry<Value> { Entry(e.key, e.value.value, e.partial, e.expires) }

  function BareList(es: seq<Entry<Traced>>): (r: seq<Entry<Value>>)
    ensures |r| == |es| && forall i :: 0 <= i < |es| ==> r[i] == Bare(es[i])
  {
    if es == [] then [] else [Bare(es[0])] + BareList(es[1..])
  }

  function BareState(s: CacheModel.State<Traced>): (r: CacheModel.State<Value>)
    requires s.Shape()
    ensures r.Shape()
  {
    CacheModel.State.State(seq(KINDS, i requires 0 <= i < KINDS => BareList(s.lists[i])), s.limits, s.ttl, s.revision)
  }

  lemma {:induction false} BareSift(es: seq<Entry<Traced>>, p: Entry<Traced> -> bool, q: Entry<Value> -> bool)
    requires forall e :: e in es ==> p(e) == q(Bare(e))
    ensures BareList(Sift(es, p)) == Sift(BareList(es), q)
  {
    if es != [] {
      BareSift(es[1..], p, q);
      assert es[0] in es;
      var rest := Sift(es[1..], p);
      assert [] + rest == rest && ([es[0]] + rest)[1..] == rest;
    }
  }

  lemma {:induction false} BareFind(es: seq<Entry<Traced>>, k: Key)
    ensures Find(BareList(es), k) == var r := Find(es, k); if r.None? then None else Some(Bare(r.value))
  {
    if es != [] { BareFind(es[1..], k); }
  }

  lemma BareStore(es: seq<Entry<Traced>>, e: Entry<Traced>, limit: int)
    ensures BareList(Store(es, e, limit)) == Store(BareList(es), Bare(e), limit)
  {
    BareSift(es, At(e.key), At(e.key));
  }

  lemma BareLookup(s: CacheModel.State<Traced>, k: Key)
    requires s.Shape()
    ensures BareState(s).Lookup(k) == var r := s.Lookup(k); if r.None? then None else Some(Bare(r.value))
  {
    if k.kind < KINDS { BareFind(s.lists[k.kind], k); }
  }

  lemma BareWith(s: CacheModel.State<Traced>, kind: Kind, es: seq<Entry<Traced>>)
    requires s.Shape() && kind < KINDS
    ensures BareState(s.With(kind, es)) == BareState(s).With(kind, BareList(es))
  {
    assert BareState(s.With(kind, es)).lists == BareState(s).With(kind, BareList(es)).lists;
  }

  lemma BarePlaced(s: CacheModel.State<Traced>, e: Entry<Traced>)
    requires s.Shape() && e.key.kind < KINDS
    ensures BareState(Placed(s, e)) == Placed(BareState(s), Bare(e))
  {
    var kind := e.key.kind;
    BareStore(s.lists[kind], e, s.limits[kind]);
    BareWith(s, kind, Store(s.lists[kind], e, s.limits[kind]));
  }

  lemma BareInsert(s: CacheModel.State<Traced>, k: Key, v: Traced, partial: bool, now: nat)
    requires s.Shape()
    ensures BareState(Insert(s, k, v, partial, now)) == Insert(BareState(s), k, v.value, partial, now)
  {
    BareLookup(s, k);
    assert Refuses(BareState(s), k, partial, now) == Refuses(s, k, partial, now);
    if !Refuses(s, k, partial, now) {
      BarePlaced(s, Entry(k, v, partial, now + s.ttl));
    }
  }

  lemma BareDrop(s: CacheModel.State<Traced>, k: Key)
    requires s.Shape()
    ensures BareState(Drop(s, k)) == Drop(BareState(s), k)
  {
    if k.kind < KINDS {
      BareSift(s.lists[k.kind], At(k), At(k));
      BareWith(s, k.kind, Without(s.lists[k.kind], k));
    }
  }

  lemma BareTouch(es: seq<Entry<Traced>>, k: Key)
    ensures BareList(Touch(es, k)) == Touch(BareList(es), k)
  {
    BareFind(es, k);
    BareSift(es, At(k), At(k));
  }

  lemma BareApply(s: CacheModel.State<Traced>, op: Op<Value>, e: nat, now: nat)
    requires s.Shape()
    ensures BareState(Apply(s, TraceOp(op, e), now)) == Apply(BareState(s), op, now)
  {
    match op
    case Put(k, v, partial) => BareInsert(s, k, Traced(v, {e}), partial, now);
    case Delete(k) => BareDrop(s, k);
    case DeleteWhere(matches) =>
      forall kind: Kind | kind < KINDS
        ensures BareList(Sift(s.lists[kind], Matching(matches))) == Sift(BareList(s.lists[kind]), Matching(matches))
      {
        BareSift(s.lists[kind], Matching(matches), Matching(matches));
      }
      assert BareState(SiftAll(s, Matching(matches))).lists == SiftAll(BareState(s), Matching(matches)).lists;
    case Edit(k, edit) =>
      BareLookup(s, k);
      BareDrop(s, k);
      if s.Lookup(k).Some? {
        var was := s.Lookup(k).value;
        BareInsert(s, k, TraceEdit(edit, e)(was.value), was.partial, now);
      }
  }

  /** Stripped of its marks, the marked program does what the program does. */
  lemma {:induction false} MarksAreInvisible(s: CacheModel.State<Traced>, ops: Program, e: nat, now: nat)
    requires s.Shape()
    ensures BareState(Exec(s, Trace(ops, e), now)) == Exec(BareState(s), ops, now)
    decreases |ops|
  {
    if ops != [] {
      BareApply(s, ops[0], e, now);
      assert Trace(ops, e)[1..] == Trace(ops[1..], e);
      MarksAreInvisible(Apply(s, TraceOp(ops[0], e), now), ops[1..], e, now);
    }
  }
}
