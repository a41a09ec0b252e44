/** The protocol refines the cache's own model: without its marks, every run of the protocol is a run of
    cache actions, each of them a projection. So what holds of all cache runs holds of all protocol runs. */
module Refinement {
  import opened Wrappers
  import opened EntityKeys
  import opened Recency
  import opened CacheModel
  import opened CacheTheorems
  import opened Projection
  import opened ProjectionTheorems
  import opened ProjectionGuarantees
  import opened Protocol
  import opened ProtocolTheorems

  /** The cache action that a step performs, if any. */
  function Effect(s: Sys, step: Step): Option<Timed<Value>>
    requires Enabled(s, step)
  {
    match step
    case Settle(c, now) =>
      var outcome := s.calls[c].phase.outcome;
      if outcome.Failed? then None
      else Some(Timed(Observed(s.calls[c].request, s.calls[c].captured, outcome.result), now))
    case Receive(_, update, now) => Some(Timed(Change(ApplyUpdate(update)), now))
    case Authorize(_, user, now) => Some(Timed(Change(ApplyUpdate(UserUpdated(user.id, Some(user)))), now))
    case Cleanup(e, now) =>
      if s.conns[e].stage.ReaderJoined? then Some(Timed(Change([DeleteWhere((k: Key) => true)]), now)) else None
    case Invalidate(matches, now) => Some(Timed(Change([DeleteWhere(matches)]), now))
    case Look(look, now) =>
      Some(Timed(if look.Get? then Action.Get(look.key) else Action.List(look.matches), now))
    case _ => None
  }

  lemma BareBump(s: CacheModel.State<Traced>, revision: nat)
    requires s.Shape()
    ensures BareState(s.(revision := revision)) == BareState(s).(revision := revision)
  {
  }

  lemma BareChange(s: CacheModel.State<Traced>, ops: Program, e: nat, now: nat)
    requires s.Shape()
    ensures BareState(Act(s, Change(Trace(ops, e)), now)) == Act(BareState(s), Change(ops), now)
  {
    BareBump(s, s.revision + 1);
    MarksAreInvisible(s.(revision := s.revision + 1), ops, e, now);
  }

  lemma BareAccept(s: CacheModel.State<Traced>, captured: nat, ops: Program, e: nat, now: nat)
    requires s.Shape()
    ensures BareState(Act(s, Accept(captured, Trace(ops, e)), now)) == Act(BareState(s), Accept(captured, ops), now)
  {
    MarksAreInvisible(s, ops, e, now);
  }

  lemma BareMutate(s: CacheModel.State<Traced>, captured: nat, ops: Program, raced: Program, e: nat, now: nat)
    requires s.Shape()
    ensures BareState(Act(s, Mutate(captured, Trace(ops, e), Trace(raced, e)), now)) ==
            Act(BareState(s), Mutate(captured, ops, raced), now)
  {
    BareBump(s, s.revision + 1);
    MarksAreInvisible(s.(revision := s.revision + 1), if s.revision == captured then ops else raced, e, now);
  }

  lemma BareObservation(s: CacheModel.State<Traced>, call: Call, result: Result, e: nat, now: nat)
    requires s.Shape()
    ensures BareState(Act(s, Observation(call, result, e), now)) ==
            Act(BareState(s), Observed(call.request, call.captured, result), now)
  {
    var request := call.request;
    if request.IsStateRead() {
      BareAccept(s, call.captured, ObserveResult(request, result), e, now);
    } else {
      BareMutate(s, call.captured, ObserveMutation(request, result), InvalidateMutation(request, result), e, now);
    }
  }

  lemma BareTouched(s: CacheModel.State<Traced>, k: Key)
    requires s.Shape() && k.kind < KINDS
    ensures BareState(s.With(k.kind, Touch(s.lists[k.kind], k))) ==
            BareState(s).With(k.kind, Touch(BareState(s).lists[k.kind], k))
  {
    BareTouch(s.lists[k.kind], k);
    BareWith(s, k.kind, Touch(s.lists[k.kind], k));
  }

  lemma BareGet(s: CacheModel.State<Traced>, k: Key, now: nat)
    requires s.Shape()
    ensures BareState(Act(s, Action.Get(k), now)) == Act(BareState(s), Action.Get(k), now)
  {
    BareLookup(s, k);
    if s.Lookup(k).Some? {
      if s.Lookup(k).value.Live(now) { BareTouched(s, k); } else { BareDrop(s, k); }
    }
  }

  lemma BareListing(s: CacheModel.State<Traced>, matches: Key -> bool, now: nat)
    requires s.Shape()
    ensures BareState(Act(s, Action.List(matches), now)) == Act(BareState(s), Action.List(matches), now)
  {
    var p: Entry<Traced> -> bool := Stale(matches, now);
    var q: Entry<Value> -> bool := Stale(matches, now);
    forall kind: Kind | kind < KINDS ensures BareList(Sift(s.lists[kind], p)) == Sift(BareList(s.lists[kind]), q) {
      forall e | e in s.lists[kind] ensures p(e) == q(Bare(e)) { assert Bare(e).Live(now) == e.Live(now); }
      BareSift(s.lists[kind], p, q);
    }
    assert BareState(Act(s, Action.List(matches), now)).lists == Act(BareState(s), Action.List(matches), now).lists;
  }

  lemma PlainSweep(matches: Key -> bool)
    ensures Trace([DeleteWhere(matches)], 0) == [Op.DeleteWhere(matches)]
  {
  }

  /** t's cache is what the effect makes of s's. */
  ghost predicate Follows(s: Sys, t: Sys, effect: Option<Timed<Value>>)
    requires s.cache.Shape()
  {
    && t.cache.Shape()
    && BareState(t.cache) == match effect
       case None => BareState(s.cache)
       case Some(a) => Act(BareState(s.cache), a.action, a.now)
  }

  lemma SettlingIsAction(s: Sys, c: nat, now: nat)
    requires s.cache.Shape() && Enabled(s, Settle(c, now))
    ensures Follows(s, Next(s, Settle(c, now)), Effect(s, Settle(c, now)))
  {
    var phase := s.calls[c].phase;
    if phase.outcome.Ok? { BareObservation(s.cache, s.calls[c], phase.outcome.result, phase.conn, now); }
  }

  lemma CleanupIsAction(s: Sys, e: nat, now: nat)
    requires s.cache.Shape() && Enabled(s, Cleanup(e, now))
    ensures Follows(s, Next(s, Cleanup(e, now)), Effect(s, Cleanup(e, now)))
  {
    PlainSweep((k: Key) => true);
    BareChange(s.cache, [DeleteWhere((k: Key) => true)], 0, now);
  }

  lemma LookIsAction(s: Sys, look: Action<Traced>, now: nat)
    requires s.cache.Shape() && Enabled(s, Look(look, now))
    ensures Follows(s, Next(s, Look(look, now)), Effect(s, Look(look, now)))
  {
    if look.Get? { BareGet(s.cache, look.key, now); } else { BareListing(s.cache, look.matches, now); }
  }

  lemma OtherStepsKeepCache(s: Sys, step: Step)
    requires s.cache.Shape() && Enabled(s, step) && (OfCalls(step) || OfFlights(step) || OfConns(step))
    ensures Next(s, step).cache == s.cache && Effect(s, step).None?
  {
  }

  /** Every step of the protocol is exactly its cache action, or leaves the cache alone. */
  lemma StepsAreActions(s: Sys, step: Step)
    requires s.cache.Shape() && Enabled(s, step)
    ensures Follows(s, Next(s, step), Effect(s, step))
  {
    match step
    case Settle(c, now) => SettlingIsAction(s, c, now);
    case Receive(e, update, now) => BareChange(s.cache, ApplyUpdate(update), e, now);
    case Authorize(e, user, now) => BareChange(s.cache, ApplyUpdate(UserUpdated(user.id, Some(user))), e, now);
    case Cleanup(e, now) => CleanupIsAction(s, e, now);
    case Invalidate(matches, now) =>
      PlainSweep(matches);
      BareChange(s.cache, [DeleteWhere(matches)], 0, now);
    case Look(look, now) => LookIsAction(s, look, now);
    case _ => OtherStepsKeepCache(s, step);
  }

  lemma EffectsProject(s: Sys, step: Step)
    requires Enabled(s, step) && Effect(s, step).Some?
    ensures Projects(Effect(s, step).value.action)
  {
  }

  /** The cache actions of the first n steps. */
  ghost function Effects(states: seq<Sys>, steps: seq<Step>, n: nat): seq<Timed<Value>>
    requires IsRun(states, steps) && n <= |steps|
  {
    if n == 0 then [] else
    Effects(states, steps, n - 1) + match Effect(states[n - 1], steps[n - 1]) case None => [] case Some(t) => [t]
  }

  /** In every run the cache is what its projections make of the cache at the start. */
  lemma {:induction false} RunsAreTraces(states: seq<Sys>, steps: seq<Step>, n: nat)
    requires IsRun(states, steps) && n <= |steps|
    ensures states[n].cache.Shape()
    ensures BareState(states[n].cache) == CacheModel.Run(BareState(states[0].cache), Effects(states, steps, n))
    ensures forall i :: 0 <= i < |Effects(states, steps, n)| ==> Projects(Effects(states, steps, n)[i].action)
  {
    if n > 0 {
      var m := n - 1;
      RunsAreTraces(states, steps, m);
      StepsAreActions(states[m], steps[m]);
      var front, all := Effects(states, steps, m), Effects(states, steps, n);
      assert states[m + 1] == Next(states[m], steps[m]);
      match Effect(states[m], steps[m])
      case None => assert all == front;
      case Some(t) =>
        EffectsProject(states[m], steps[m]);
        assert all == front + [t] && all[..|all| - 1] == front;
    }
  }

  /** So in every run of the protocol, all that is cached under a key is that key's own entity, of its
      kind, community or chat, and id. */
  lemma CachedUnderOwnKeys(states: seq<Sys>, steps: seq<Step>, n: nat)
    requires IsRun(states, steps) && n <= |steps|
    requires states[0].cache.Valid() && forall kind: Kind :: kind < KINDS ==> states[0].cache.lists[kind] == []
    ensures states[n].cache.Shape()
    ensures forall k :: var e := states[n].cache.Lookup(k); e.Some? ==> Owns(k, e.value.value.value)
  {
    var s := BareState(states[0].cache);
    RunsAreTraces(states, steps, n);
    assert forall kind: Kind :: kind < KINDS ==> s.lists[kind] == [] && s.ListOk(kind);
    RunFiled(s, Effects(states, steps, n));
    forall k ensures var e := states[n].cache.Lookup(k); e.Some? ==> Owns(k, e.value.value.value) {
      BareLookup(states[n].cache, k);
    }
  }
}
