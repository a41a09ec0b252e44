/** What one call goes through in every run of the protocol: whom it follows, on which connection it is
    sent, and whose answer it returns. */
module CallTheorems {
  import opened Wrappers
  import opened EntityKeys
  import opened CacheModel
  import opened Projection
  import opened FlightKeys
  import opened Protocol
  import opened ProtocolTheorems

  // ---------- Coalescing ----------

  /** d leads a flight that c may share: the same request at the same captured revision, not yet returned. */
  predicate Shareable(s: Sys, c: nat, d: nat) {
    && c < |s.calls| && d < |s.calls| && s.calls[d].leads && !s.calls[d].phase.Returned?
    && s.calls[d].request == s.calls[c].request && s.calls[d].captured == s.calls[c].captured
  }

  lemma ShareableIsTracked(s: Sys, c: nat, d: nat)
    requires Inv(s) && Shareable(s, c, d) && Keyed(s.calls[c]) && Keyed(s.calls[d])
    ensures s.calls[c].request.IsStateRead() && s.calls[c].key in s.flights && s.flights[s.calls[c].key] == d
  {
    assert CallOk(s, d);
  }

  lemma TrackedIsShareable(s: Sys, c: nat)
    requires Inv(s) && c < |s.calls| && s.calls[c].request.IsStateRead() && s.calls[c].key in s.flights
    requires forall d :: 0 <= d < |s.calls| ==> Keyed(s.calls[d])
    ensures Shareable(s, c, s.flights[s.calls[c].key])
  {
    var d := s.flights[s.calls[c].key];
    assert CallOk(s, d);
    SharedReadsAreEqual(s.calls[c].request, s.calls[c].captured, s.calls[d].request, s.calls[d].captured);
  }

  lemma CallsAreKeyed(states: seq<Sys>, steps: seq<Step>, i: nat)
    requires IsRun(states, steps) && i < |states|
    ensures forall c :: 0 <= c < |states[i].calls| ==> Keyed(states[i].calls[c])
  {
    RunsGoOn(states, steps, 0, i);
    assert forall b :: 0 <= b < |states[0].calls| ==> SameCall(states[0].calls[b], states[i].calls[b]);
  }

  /** In every run a call that reaches the flights follows the call that leads with the same request at the
      same captured revision, if one has not returned yet. Else a read leads, unless 256 flights are
      tracked; and a call that is not a read goes on alone. */
  lemma ReadsCoalesce(states: seq<Sys>, steps: seq<Step>, i: nat, d: nat)
    requires IsRun(states, steps) && i < |steps| && steps[i].EnterFlights?
    ensures steps[i].call < |states[i].calls| == |states[i + 1].calls|
    ensures var s, c, after := states[i], steps[i].call, states[i + 1].calls[steps[i].call];
      && (Shareable(s, c, d) ==> after.phase == Following(d) && after.followed == Some(d) && !after.leads)
      && (after.phase.Following? ==> Shareable(s, c, after.phase.leader))
      && (!after.phase.Following? ==> after.phase == Issuing)
      && (after.leads <==> !after.phase.Following? && s.calls[c].request.IsStateRead() && |s.flights| < 256)
  {
    var s, c := states[i], steps[i].call;
    RunKeepsInv(states, steps, i);
    CallsAreKeyed(states, steps, i);
    assert CallOk(s, c);
    assert states[i + 1] == Next(s, steps[i]);
    if Shareable(s, c, d) { ShareableIsTracked(s, c, d); }
    if s.calls[c].request.IsStateRead() && s.calls[c].key in s.flights { TrackedIsShareable(s, c); }
  }

  // ---------- Where an outcome comes from ----------

  predicate SentAt(states: seq<Sys>, steps: seq<Step>, b: nat, c: nat, e: nat) {
    b < |steps| < |states| && steps[b] == Bind(c) && states[b].active == Some(e)
  }

  /** c was bound to connection e while that was the active one. */
  ghost predicate WasSent(states: seq<Sys>, steps: seq<Step>, i: nat, c: nat, e: nat) {
    exists b: nat :: b < i && SentAt(states, steps, b, c, e)
  }

  ghost predicate AnsweredAt(states: seq<Sys>, steps: seq<Step>, j: nat, c: nat, e: nat, id: nat, result: Result) {
    && j < |steps| < |states| && steps[j] == Resolve(e, id, Ok(result))
    && c < |states[j].calls| && states[j].calls[c].phase == Waiting(e, id)
    && WasSent(states, steps, j, c, e)
  }

  /** The result came over the connection c was sent on, under the id c was waiting under. */
  ghost predicate WasAnswered(states: seq<Sys>, steps: seq<Step>, i: nat, c: nat, e: nat, result: Result) {
    exists j: nat, id :: j < i && AnsweredAt(states, steps, j, c, e, id, result)
  }

  ghost predicate ObservedAt(states: seq<Sys>, steps: seq<Step>, m: nat, c: nat, e: nat, result: Result) {
    && m < |steps| < |states| && steps[m].Settle? && steps[m].call == c
    && c < |states[m].calls| && states[m].calls[c].phase == Delivered(e, Ok(result))
    && WasAnswered(states, steps, m, c, e, result)
  }

  /** And then the cache observed it for c. */
  ghost predicate WasObserved(states: seq<Sys>, steps: seq<Step>, i: nat, c: nat, result: Result) {
    exists m: nat, e :: m < i && ObservedAt(states, steps, m, c, e, result)
  }

  ghost predicate PastOk(states: seq<Sys>, steps: seq<Step>, i: nat, c: nat)
    requires i < |states| && c < |states[i].calls|
  {
    var call := states[i].calls[c];
    match call.phase
    case Bound(e) => WasSent(states, steps, i, c, e)
    case Waiting(e, _) => WasSent(states, steps, i, c, e)
    case Delivered(e, outcome) => outcome.Ok? ==> WasAnswered(states, steps, i, c, e, outcome.result)
    case Settled(outcome) => outcome.Ok? ==> WasObserved(states, steps, i, c, outcome.result)
    case Returned(outcome) =>
      outcome.Ok? && call.followed.None? ==> WasObserved(states, steps, i, c, outcome.result)
    case _ => true
  }

  /** How a call can come to be where a step leaves it. */
  ghost predicate CameBy(s: Sys, step: Step, before: Call, after: Call, c: nat) {
    match after.phase
    case Bound(e) => step == Bind(c) && s.active == Some(e)
    case Waiting(e, _) => before.phase == Bound(e)
    case Delivered(e, outcome) =>
      outcome.Ok? ==> exists id :: step == Resolve(e, id, outcome) && before.phase == Waiting(e, id)
    case Settled(outcome) =>
      outcome.Ok? ==> step.Settle? && step.call == c && before.phase.Delivered? && before.phase.outcome == outcome
    case Returned(outcome) =>
      outcome.Ok? && after.followed.None? ==> before.phase == Settled(outcome)
    case _ => true
  }

  lemma BrokerCameBy(s: Sys, step: Step, c: nat)
    requires Inv(s) && Enabled(s, step) && c < |s.calls|
    requires step.Resolve? || step.FailAll? || step.Cleanup? || step.Abandon?
    ensures c < |Next(s, step).calls|
    ensures var after := Next(s, step).calls[c]; after == s.calls[c] || CameBy(s, step, s.calls[c], after, c)
  {
    var after := Next(s, step).calls[c];
    if step.Resolve? && after != s.calls[c] {
      assert ConnOk(s, step.conn);
      assert step == Resolve(step.conn, step.id, step.outcome);
    }
  }

  lemma FlightCameBy(s: Sys, step: Step, c: nat)
    requires Inv(s) && Enabled(s, step) && c < |s.calls| && OfFlights(step)
    ensures c < |Next(s, step).calls|
    ensures var after := Next(s, step).calls[c]; after == s.calls[c] || CameBy(s, step, s.calls[c], after, c)
  {
    assert CallOk(s, c);
  }

  lemma StepCameBy(s: Sys, step: Step, c: nat)
    requires Inv(s) && Enabled(s, step) && c < |s.calls|
    ensures c < |Next(s, step).calls|
    ensures var after := Next(s, step).calls[c]; after == s.calls[c] || CameBy(s, step, s.calls[c], after, c)
  {
    if step.Resolve? || step.FailAll? || step.Cleanup? || step.Abandon? {
      BrokerCameBy(s, step, c);
    } else if OfFlights(step) {
      FlightCameBy(s, step, c);
    }
  }

  lemma NewCallIsCaptured(s: Sys, step: Step, c: nat)
    requires s.cache.Shape() && Enabled(s, step) && |s.calls| <= c < |Next(s, step).calls|
    ensures Next(s, step).calls[c].phase.Captured?
  {
  }

  lemma PastStays(states: seq<Sys>, steps: seq<Step>, i: nat, c: nat)
    requires i + 1 < |states| && c < |states[i].calls| && c < |states[i + 1].calls| && PastOk(states, steps, i, c)
    requires states[i + 1].calls[c] == states[i].calls[c]
    ensures PastOk(states, steps, i + 1, c)
  {
  }

  lemma PastMoves(states: seq<Sys>, steps: seq<Step>, i: nat, c: nat)
    requires i < |steps| < |states| && c < |states[i].calls| && c < |states[i + 1].calls| && PastOk(states, steps, i, c)
    requires CameBy(states[i], steps[i], states[i].calls[c], states[i + 1].calls[c], c)
    ensures PastOk(states, steps, i + 1, c)
  {
    var before, after := states[i].calls[c].phase, states[i + 1].calls[c].phase;
    match after
    case Bound(e) => assert SentAt(states, steps, i, c, e);
    case Delivered(e, outcome) =>
      if outcome.Ok? {
        var id :| steps[i] == Resolve(e, id, outcome) && before == Waiting(e, id);
        assert AnsweredAt(states, steps, i, c, e, id, outcome.result);
      }
    case Settled(outcome) =>
      if outcome.Ok? { assert ObservedAt(states, steps, i, c, before.conn, outcome.result); }
    case _ =>
  }

  lemma {:induction false} PastIsKept(states: seq<Sys>, steps: seq<Step>, i: nat, c: nat)
    requires IsRun(states, steps) && states[0].calls == [] && i < |states| && c < |states[i].calls|
    ensures PastOk(states, steps, i, c)
  {
    if i > 0 {
      var k := i - 1;
      RunKeepsInv(states, steps, k);
      assert states[k + 1] == Next(states[k], steps[k]);
      if c >= |states[k].calls| {
        NewCallIsCaptured(states[k], steps[k], c);
      } else {
        PastIsKept(states, steps, k, c);
        StepCameBy(states[k], steps[k], c);
        if states[k + 1].calls[c] == states[k].calls[c] {
          PastStays(states, steps, k, c);
        } else {
          PastMoves(states, steps, k, c);
        }
      }
    }
  }

  /** In every run, a call that returns a result returns one that came over the connection it was sent on,
      the active one when it was bound, under the id it was waiting under, and that the cache observed for
      it afterwards; or, if it followed another call, the result that its leader so obtained. */
  lemma OwnAnswer(states: seq<Sys>, steps: seq<Step>, i: nat, c: nat)
    requires IsRun(states, steps) && states[0].calls == [] && i < |states| && c < |states[i].calls|
    requires states[i].calls[c].phase.Returned? && states[i].calls[c].phase.outcome.Ok?
    ensures var call := states[i].calls[c];
      WasObserved(states, steps, i, if call.followed.None? then c else call.followed.value, call.phase.outcome.result)
  {
    var call := states[i].calls[c];
    RunKeepsInv(states, steps, i);
    PastIsKept(states, steps, i, c);
    if call.followed.Some? {
      assert CallOk(states[i], c) && CallOk(states[i], call.followed.value);
      PastIsKept(states, steps, i, call.followed.value);
    }
  }

  // ---------- How calls and connections go on ----------

  /** In every run: a call is bound to the active connection and registered with its broker unless that is
      closed; a result for a waiting call is delivered to it, and the failure of its broker as an error; a
      delivered outcome is settled, a settled one returned, and a follower returns what its leader did. Steps
      of others leave it where it is. */
  lemma CallsMoveOn(states: seq<Sys>, steps: seq<Step>, i: nat, c: nat)
    requires IsRun(states, steps) && i < |steps| && c < |states[i].calls|
    ensures c < |states[i + 1].calls|
    ensures var s, t, before, after := states[i], states[i + 1], states[i].calls[c].phase, states[i + 1].calls[c].phase;
      match steps[i]
      case EnterFlights(d) => d == c || after == before // ReadsCoalesce
      case Refuse(d, error) => after == if d == c then Phase.Settled(Failed(error)) else before
      case Bind(d) =>
        after == if d != c then before
                 else if s.active.None? then Phase.Settled(Failed("not connected"))
                 else Bound(s.active.value)
      case Register(d, id) =>
        if d != c then after == before
        else
          && before.Bound? && before.conn < |s.conns| == |t.conns|
          && if s.conns[before.conn].closed then after == Phase.Settled(Failed("not connected"))
             else after == Waiting(before.conn, id) && id in t.conns[before.conn].pending
                  && t.conns[before.conn].pending[id] == c
      case Resolve(e, id, outcome) => after == if before == Waiting(e, id) then Delivered(e, outcome) else before
      case FailAll(e, error) =>
        after == if before.Waiting? && before.conn == e then Delivered(e, Failed(error)) else before
      case Cleanup(e, _) =>
        && e < |s.conns|
        && after == if before.Waiting? && before.conn == e && s.conns[e].stage.Cancelled?
                    then Delivered(e, Failed("disconnected")) else before
      case Abandon(d, error) => after == if d == c then Phase.Settled(Failed(error)) else before
      case Settle(d, _) =>
        if d != c then after == before else before.Delivered? && after == Phase.Settled(before.outcome)
      case Land(d) => if d != c then after == before else before.Settled? && after == Returned(before.outcome)
      case Join(d) =>
        if d != c then after == before
        else before.Following? && before.leader < |s.calls| && after.Returned? && after == s.calls[before.leader].phase
      case StopWaiting(d, error) => after == if d == c then Returned(Failed(error)) else before
      case _ => after == before
  {
    var s, step := states[i], steps[i];
    RunKeepsInv(states, steps, i);
    assert states[i + 1] == Next(s, step);
    if OfBrokers(step) { BrokerMoves(s, step, c); }
    else if OfCaller(step) { OwnMoves(s, step, c); }
    else { OthersMove(s, step, c); }
  }

  predicate OfBrokers(step: Step) { step.Resolve? || step.FailAll? || step.Cleanup? || step.Register? }

  predicate OfCaller(step: Step) {
    || step.EnterFlights? || step.Refuse? || step.Bind? || step.Abandon? || step.Settle? || step.Land? || step.Join?
    || step.StopWaiting?
  }

  lemma OthersMove(s: Sys, step: Step, c: nat)
    requires s.cache.Shape() && Enabled(s, step) && c < |s.calls| && !OfBrokers(step) && !OfCaller(step)
    ensures c < |Next(s, step).calls| && Next(s, step).calls[c].phase == s.calls[c].phase
  {
  }

  lemma OwnMoves(s: Sys, step: Step, c: nat)
    requires Inv(s) && Enabled(s, step) && c < |s.calls| && OfCaller(step)
    ensures c < |Next(s, step).calls|
    ensures var before, after := s.calls[c].phase, Next(s, step).calls[c].phase;
      if step.call != c then after == before
      else
        match step
        case EnterFlights(_) => true
        case Refuse(_, error) => after == Phase.Settled(Failed(error))
        case Bind(_) =>
          after == if s.active.None? then Phase.Settled(Failed("not connected")) else Bound(s.active.value)
        case Abandon(_, error) => after == Phase.Settled(Failed(error))
        case Settle(_, _) => after == Phase.Settled(before.outcome)
        case Land(_) => after == Returned(before.outcome)
        case Join(_) => before.leader < |s.calls| && after.Returned? && after == s.calls[before.leader].phase
        case StopWaiting(_, error) => after == Returned(Failed(error))
  {
    assert CallOk(s, c);
  }

  lemma BrokerMoves(s: Sys, step: Step, c: nat)
    requires Inv(s) && Enabled(s, step) && c < |s.calls| && OfBrokers(step)
    ensures c < |Next(s, step).calls|
    ensures var t, before, after := Next(s, step), s.calls[c].phase, Next(s, step).calls[c].phase;
      match step
      case Register(d, id) =>
        if d != c then after == before
        else
          && before.conn < |s.conns| == |t.conns|
          && if s.conns[before.conn].closed then after == Phase.Settled(Failed("not connected"))
             else after == Waiting(before.conn, id) && id in t.conns[before.conn].pending
                  && t.conns[before.conn].pending[id] == c
      case Resolve(e, id, outcome) => after == if before == Waiting(e, id) then Delivered(e, outcome) else before
      case FailAll(e, error) =>
        after == if before.Waiting? && before.conn == e then Delivered(e, Failed(error)) else before
      case Cleanup(e, _) =>
        after == if before.Waiting? && before.conn == e && s.conns[e].stage.Cancelled?
                 then Delivered(e, Failed("disconnected")) else before
  {
    match step
    case Register(_, _) =>
    case Resolve(_, _, _) => ResolveMoves(s, step, c);
    case FailAll(_, _) => FailAllMoves(s, step, c);
    case Cleanup(_, _) => CleanupMoves(s, step, c);
  }

  lemma ResolveMoves(s: Sys, step: Step, c: nat)
    requires Inv(s) && Enabled(s, step) && c < |s.calls| && step.Resolve?
    ensures c < |Next(s, step).calls|
    ensures Next(s, step).calls[c].phase ==
      if s.calls[c].phase == Waiting(step.conn, step.id) then Delivered(step.conn, step.outcome) else s.calls[c].phase
  {
    assert CallOk(s, c) && ConnOk(s, step.conn);
  }

  lemma FailAllMoves(s: Sys, step: Step, c: nat)
    requires Inv(s) && Enabled(s, step) && c < |s.calls| && step.FailAll?
    ensures c < |Next(s, step).calls|
    ensures var before, after := s.calls[c].phase, Next(s, step).calls[c].phase;
      after == if before.Waiting? && before.conn == step.conn then Delivered(step.conn, Failed(step.error)) else before
  {
    assert CallOk(s, c) && ConnOk(s, step.conn);
  }

  lemma CleanupMoves(s: Sys, step: Step, c: nat)
    requires Inv(s) && Enabled(s, step) && c < |s.calls| && step.Cleanup?
    ensures c < |Next(s, step).calls|
    ensures var e, before, after := step.conn, s.calls[c].phase, Next(s, step).calls[c].phase;
      after == if before.Waiting? && before.conn == e && s.conns[e].stage.Cancelled?
               then Delivered(e, Failed("disconnected")) else before
  {
    var e := step.conn;
    assert CallOk(s, c) && ConnOk(s, e);
    if s.conns[e].stage.Cancelled? { FailAllMoves(s, FailAll(e, "disconnected"), c); }
  }

  lemma CleanupGoesOneStage(s: Sys, step: Step)
    requires s.cache.Shape() && Enabled(s, step) && step.Cleanup?
    ensures var e, t := step.conn, Next(s, step);
      && |t.conns| == |s.conns| && t.conns[e].stage.Rank() == s.conns[e].stage.Rank() + 1
      && t.active == if s.conns[e].stage.CacheCleared? && s.active == Some(e) then None else s.active
  {
  }

  lemma OthersKeepActive(s: Sys, step: Step)
    requires s.cache.Shape() && Enabled(s, step) && !step.Dial? && !step.Cleanup?
    ensures Next(s, step).active == s.active && |Next(s, step).conns| == |s.conns|
  {
  }

  /** A dial makes a fresh open connection the active one, and only the end of the active connection's own
      teardown takes it away. */
  lemma ActiveFollowsDials(states: seq<Sys>, steps: seq<Step>, i: nat)
    requires IsRun(states, steps) && i < |steps|
    ensures var s, t := states[i], states[i + 1];
      match steps[i]
      case Dial => t.active == Some(|s.conns|) && t.conns == s.conns + [Conn(map[], false, true, Live)]
      case Cleanup(e, _) =>
        && e < |s.conns| == |t.conns|
        && t.active == (if s.conns[e].stage.CacheCleared? && s.active == Some(e) then None else s.active)
        && t.conns[e].stage.Rank() == s.conns[e].stage.Rank() + 1
      case _ => t.active == s.active && |t.conns| == |s.conns|
  {
    assert states[i + 1] == Next(states[i], steps[i]);
    if steps[i].Cleanup? { CleanupGoesOneStage(states[i], steps[i]); }
    else if !steps[i].Dial? { OthersKeepActive(states[i], steps[i]); }
  }

  // ---------- An answer is returned ----------

  lemma StepRemains(states: seq<Sys>, steps: seq<Step>, more: seq<Sys>, longer: seq<Step>, i: nat)
    requires IsRun(states, steps) && i < |steps| && states <= more && steps <= longer
    ensures more[i].cache.Shape() && Enabled(more[i], longer[i]) && more[i + 1] == Next(more[i], longer[i])
  {
    assert longer[i] == steps[i] && more[i] == states[i] && more[i + 1] == states[i + 1];
  }

  lemma Continue(states: seq<Sys>, steps: seq<Step>, step: Step) returns (more: seq<Sys>, longer: seq<Step>)
    requires IsRun(states, steps) && states[|steps|].cache.Shape() && Enabled(states[|steps|], step)
    ensures IsRun(more, longer)
    ensures more == states + [Next(states[|steps|], step)] && longer == steps + [step]
  {
    more, longer := states + [Next(states[|steps|], step)], steps + [step];
    forall i {:trigger longer[i]} | 0 <= i < |longer|
      ensures more[i].cache.Shape() && Enabled(more[i], longer[i]) && more[i + 1] == Next(more[i], longer[i])
    {
      if i < |steps| { StepRemains(states, steps, more, longer, i); }
    }
    assert more[0] == states[0];
  }

  lemma Answer(states: seq<Sys>, steps: seq<Step>, c: nat, result: Result)
    returns (more: seq<Sys>, longer: seq<Step>)
    requires IsRun(states, steps) && c < |states[|steps|].calls| && states[|steps|].calls[c].phase.Waiting?
    requires var s := states[|steps|]; var e := s.calls[c].phase.conn; e < |s.conns| && s.conns[e].reading
    ensures IsRun(more, longer) && |longer| == |steps| + 1 && states <= more && steps <= longer
    ensures var s, t := states[|steps|], more[|longer|];
      t.cache == s.cache && c < |t.calls|
      && t.calls[c] == s.calls[c].(phase := Delivered(s.calls[c].phase.conn, Ok(result)))
  {
    var s := states[|steps|];
    var step := Resolve(s.calls[c].phase.conn, s.calls[c].phase.id, Ok(result));
    RunKeepsInv(states, steps, |steps|);
    assert CallOk(s, c);
    more, longer := Continue(states, steps, step);
  }

  lemma Observe(states: seq<Sys>, steps: seq<Step>, c: nat, now: nat) returns (more: seq<Sys>, longer: seq<Step>)
    requires IsRun(states, steps) && c < |states[|steps|].calls|
    requires var phase := states[|steps|].calls[c].phase; phase.Delivered? && phase.outcome.Ok?
    ensures IsRun(more, longer) && |longer| == |steps| + 1 && states <= more && steps <= longer
    ensures var s, t, call := states[|steps|], more[|longer|], states[|steps|].calls[c];
      && s.cache.Shape() && t.cache == Act(s.cache, Observation(call, call.phase.outcome.result, call.phase.conn), now)
      && c < |t.calls| && t.calls[c].phase == Phase.Settled(call.phase.outcome)
  {
    RunKeepsInv(states, steps, |steps|);
    more, longer := Continue(states, steps, Step.Settle(c, now));
  }

  lemma Return(states: seq<Sys>, steps: seq<Step>, c: nat) returns (more: seq<Sys>, longer: seq<Step>)
    requires IsRun(states, steps) && c < |states[|steps|].calls| && states[|steps|].calls[c].phase.Settled?
    ensures IsRun(more, longer) && |longer| == |steps| + 1 && states <= more && steps <= longer
    ensures var s, t := states[|steps|], more[|longer|];
      t.cache == s.cache && c < |t.calls| && t.calls[c].phase == Returned(s.calls[c].phase.outcome)
  {
    RunKeepsInv(states, steps, |steps|);
    more, longer := Continue(states, steps, Step.Land(c));
  }

  /** A waiting call whose connection is still read gets, for whatever result arrives under its id, that very
      result: the run goes on to a state in which it has returned it and the cache has observed it. */
  lemma AnswerIsReturned(states: seq<Sys>, steps: seq<Step>, c: nat, result: Result, now: nat)
    returns (more: seq<Sys>, longer: seq<Step>)
    requires IsRun(states, steps) && c < |states[|steps|].calls|
    requires var s := states[|steps|];
      s.calls[c].phase.Waiting? && s.calls[c].phase.conn < |s.conns| && s.conns[s.calls[c].phase.conn].reading
    ensures IsRun(more, longer) && |longer| == |steps| + 3 && states <= more && steps <= longer
    ensures var s, t := states[|steps|], more[|longer|];
      && c < |t.calls| && t.calls[c].phase == Returned(Ok(result))
      && s.cache.Shape() && t.cache == Act(s.cache, Observation(s.calls[c], result, s.calls[c].phase.conn), now)
  {
    RunKeepsInv(states, steps, |steps|);
    more, longer := Answer(states, steps, c, result);
    more, longer := Observe(more, longer, c, now);
    more, longer := Return(more, longer, c);
  }
}
