/** Calls, flights, connections and the cache as one state machine. Every region under a lock, and
    every hand-over between them, is one step, so that all races are runs of the machine. Cached values
    carry the connections they came from. */
module Protocol {
  import opened Wrappers
  import opened EntityKeys
  import opened Recency
  import opened CacheModel
  import opened CacheTheorems
  import opened Projection
  import opened ProjectionGuarantees
  import opened FlightKeys

  // ---------- Provenance ----------

  datatype Traced = Traced(value: Value, origins: set<nat>)

  function TraceEdit(edit: Value -> Value, conn: nat): Traced -> Traced {
    (t: Traced) => Traced(edit(t.value), t.origins + {conn})
  }

  function TraceOp(op: Op<Value>, conn: nat): Op<Traced> {
    match op
    case Put(k, v, partial) => Put(k, Traced(v, {conn}), partial)
    case Delete(k) => Delete(k)
    case DeleteWhere(matches) => DeleteWhere(matches)
    case Edit(k, edit) => Edit(k, TraceEdit(edit, conn))
  }

  /** The same program, marking what it stores or rewrites with the connection it came from. */
  function Trace(ops: Program, conn: nat): (r: seq<Op<Traced>>)
    ensures |r| == |ops| && forall i :: 0 <= i < |ops| ==> r[i] == TraceOp(ops[i], conn)
  {
    if ops == [] then [] else [TraceOp(ops[0], conn)] + Trace(ops[1..], conn)
  }

  // ---------- States ----------

  datatype Outcome = Ok(result: Result) | Failed(error: string)

  datatype Phase =
    | Captured                               // the revision is read
    | Following(leader: nat)                 // waiting for another call's flight
    | Issuing                                // past the flights, no connection chosen
    | Bound(conn: nat)                       // holds a connection, not registered with its broker
    | Waiting(conn: nat, id: nat)            // pending at the broker
    | Delivered(conn: nat, outcome: Outcome) // the outcome is in the call's channel
    | Settled(outcome: Outcome)              // the cache has been updated, or there was nothing to do
    | Returned(outcome: Outcome)

  datatype Call = Call(request: Request, captured: nat, key: string, leads: bool, followed: Option<nat>, phase: Phase)

  /** A read may be shared under its type, captured revision and encoding. */
  predicate Keyed(c: Call) {
    c.request.IsStateRead() ==> c.key == FlightKey(TypeName(c.request), c.captured, Encode(c.request))
  }

  function NewCall(request: Request, captured: nat): (c: Call)
    ensures Keyed(c) && c.captured == captured
  {
    var key := if request.IsStateRead() then FlightKey(TypeName(request), captured, Encode(request)) else "";
    Call(request, captured, key, false, None, Captured)
  }

  /** How far cleanupActive has come. */
  datatype Stage = Live | Cancelled | BrokerClosed | SocketClosed | ReaderJoined | CacheCleared | Detached {
    function Rank(): nat {
      match this
      case Live => 0 case Cancelled => 1 case BrokerClosed => 2 case SocketClosed => 3
      case ReaderJoined => 4 case CacheCleared => 5 case Detached => 6
    }
  }

  datatype Conn = Conn(pending: map<nat, nat>, closed: bool, reading: bool, stage: Stage)

  datatype State = State(cache: CacheModel.State<Traced>, calls: seq<Call>, conns: seq<Conn>,
                         active: Option<nat>, flights: map<string, nat>)

  const MAX_FLIGHTS := 256

  datatype Step =
    | Begin(request: Request)
    | EnterFlights(call: nat)
    | Refuse(call: nat, error: string)       // any error before a connection is chosen
    | Bind(call: nat)
    | Register(call: nat, id: nat)
    | Resolve(conn: nat, id: nat, outcome: Outcome)
    | Abandon(call: nat, error: string)      // context done or encoding failed: cancel
    | Settle(call: nat, now: nat)
    | Land(call: nat)
    | Join(call: nat)
    | StopWaiting(call: nat, error: string)  // a follower's own context is done
    | Receive(conn: nat, update: Update, now: nat)
    | Authorize(conn: nat, user: User, now: nat)
    | Dial
    | FailAll(conn: nat, error: string)      // reader error or Close
    | StopReader(conn: nat)
    | Cleanup(conn: nat, now: nat)           // the next step of cleanupActive
    | Invalidate(matches: Key -> bool, now: nat)
    | Look(look: Action<Traced>, now: nat)

  function SetPhase(s: State, c: nat, phase: Phase): State
    requires c < |s.calls|
  {
    s.(calls := s.calls[c := s.calls[c].(phase := phase)])
  }

  /** The call's entry leaves the broker, if it is still the call's own. */
  function Cancel(s: State, c: nat): State
    requires c < |s.calls|
  {
    match s.calls[c].phase
    case Waiting(e, id) =>
      if e < |s.conns| && id in s.conns[e].pending && s.conns[e].pending[id] == c
      then s.(conns := s.conns[e := s.conns[e].(pending := s.conns[e].pending - {id})])
      else s
    case _ => s
  }

  function FailPending(calls: seq<Call>, e: nat, conn: Conn, error: string): (r: seq<Call>)
    ensures |r| == |calls|
  {
    seq(|calls|, c requires 0 <= c < |calls| =>
      if c in conn.pending.Values then calls[c].(phase := Delivered(e, Failed(error))) else calls[c])
  }

  function CloseBroker(s: State, e: nat, error: string): State
    requires e < |s.conns|
  {
    var conn := s.conns[e];
    if conn.closed then s
    else
      s.(calls := FailPending(s.calls, e, conn, error), conns := s.conns[e := conn.(closed := true, pending := map[])])
  }

  /** What a call that got a result does to the cache. */
  function Observation(c: Call, result: Result, conn: nat): Action<Traced> {
    if c.request.IsStateRead() then Accept(c.captured, Trace(ObserveResult(c.request, result), conn))
    else Mutate(c.captured, Trace(ObserveMutation(c.request, result), conn),
                Trace(InvalidateMutation(c.request, result), conn))
  }

  predicate Enabled(s: State, step: Step) {
    match step
    case Begin(_) => true
    case EnterFlights(c) => c < |s.calls| && s.calls[c].phase.Captured?
    case Refuse(c, _) => c < |s.calls| && (s.calls[c].phase.Issuing?)
    case Bind(c) => c < |s.calls| && s.calls[c].phase.Issuing?
    case Register(c, id) =>
      c < |s.calls| && s.calls[c].phase.Bound? && s.calls[c].phase.conn < |s.conns|
      && id != 0 && id !in s.conns[s.calls[c].phase.conn].pending
    case Resolve(e, _, _) => e < |s.conns| && s.conns[e].reading
    case Abandon(c, _) =>
      c < |s.calls| && (s.calls[c].phase.Bound? || s.calls[c].phase.Waiting? || s.calls[c].phase.Delivered?)
    case Settle(c, _) => c < |s.calls| && s.calls[c].phase.Delivered?
    case Land(c) => c < |s.calls| && s.calls[c].phase.Settled?
    case Join(c) =>
      c < |s.calls| && s.calls[c].phase.Following? && s.calls[c].phase.leader < |s.calls|
      && s.calls[s.calls[c].phase.leader].phase.Returned?
    case StopWaiting(c, _) => c < |s.calls| && s.calls[c].phase.Following?
    case Receive(e, _, _) => e < |s.conns| && s.conns[e].reading
    case Authorize(e, _, _) => e < |s.conns| && s.conns[e].stage.Live?
    case Dial => true
    case FailAll(e, _) => e < |s.conns|
    case StopReader(e) => e < |s.conns|
    case Cleanup(e, _) =>
      && e < |s.conns| && !s.conns[e].stage.Detached?
      && (s.conns[e].stage.SocketClosed? ==> !s.conns[e].reading)
    case Invalidate(_, _) => true
    case Look(look, _) => look.Get? || look.List?
  }

  function Next(s: State, step: Step): State
    requires Enabled(s, step) && s.cache.Shape()
  {
    match step
    case Begin(request) => s.(calls := s.calls + [NewCall(request, s.cache.revision)])
    case EnterFlights(c) =>
      var call := s.calls[c];
      if !call.request.IsStateRead() then SetPhase(s, c, Issuing)
      else if call.key in s.flights then
        var leader := s.flights[call.key];
        s.(calls := s.calls[c := call.(followed := Some(leader), phase := Following(leader))])
      else if |s.flights| < MAX_FLIGHTS then
        s.(calls := s.calls[c := call.(leads := true, phase := Issuing)], flights := s.flights[call.key := c])
      else SetPhase(s, c, Issuing)
    case Refuse(c, error) => SetPhase(s, c, Settled(Failed(error)))
    case Bind(c) =>
      SetPhase(s, c, if s.active.None? then Settled(Failed("not connected")) else Bound(s.active.value))
    case Register(c, id) =>
      var e := s.calls[c].phase.conn;
      if s.conns[e].closed then SetPhase(s, c, Settled(Failed("not connected")))
      else SetPhase(s.(conns := s.conns[e := s.conns[e].(pending := s.conns[e].pending[id := c])]), c, Waiting(e, id))
    case Resolve(e, id, outcome) =>
      if id !in s.conns[e].pending || s.conns[e].pending[id] >= |s.calls| then s
      else
        var c := s.conns[e].pending[id];
        SetPhase(s.(conns := s.conns[e := s.conns[e].(pending := s.conns[e].pending - {id})]), c, Delivered(e, outcome))
    case Abandon(c, error) => SetPhase(Cancel(s, c), c, Settled(Failed(error)))
    case Settle(c, now) =>
      var phase := s.calls[c].phase;
      SetPhase(if phase.outcome.Failed? then s
               else s.(cache := Act(s.cache, Observation(s.calls[c], phase.outcome.result, phase.conn), now)),
               c, Settled(phase.outcome))
    case Land(c) =>
      var call := s.calls[c];
      SetPhase(if call.leads then s.(flights := s.flights - {call.key}) else s, c, Returned(call.phase.outcome))
    case Join(c) => SetPhase(s, c, s.calls[s.calls[c].phase.leader].phase)
    case StopWaiting(c, error) =>
      s.(calls := s.calls[c := s.calls[c].(followed := None, phase := Returned(Failed(error)))])
    case Receive(e, update, now) => s.(cache := Act(s.cache, Change(Trace(ApplyUpdate(update), e)), now))
    case Authorize(e, user, now) =>
      s.(cache := Act(s.cache, Change(Trace(ApplyUpdate(UserUpdated(user.id, Some(user))), e)), now))
    case Dial => s.(conns := s.conns + [Conn(map[], false, true, Live)], active := Some(|s.conns|))
    case FailAll(e, error) => CloseBroker(s, e, error)
    case StopReader(e) => s.(conns := s.conns[e := s.conns[e].(reading := false)])
    case Cleanup(e, now) =>
      (match s.conns[e].stage
       case Live => SetStage(s, e, Cancelled)
       case Cancelled => SetStage(CloseBroker(s, e, "disconnected"), e, BrokerClosed)
       case BrokerClosed => SetStage(s, e, SocketClosed)
       case SocketClosed => SetStage(s, e, ReaderJoined)
       case ReaderJoined => SetStage(s.(cache := Act(s.cache, ClearAll(), now)), e, CacheCleared)
       case CacheCleared => SetStage(if s.active == Some(e) then s.(active := None) else s, e, Detached)
       case Detached => s)
    case Invalidate(matches, now) => s.(cache := Act(s.cache, Change([DeleteWhere(matches)]), now))
    case Look(look, now) => s.(cache := Act(s.cache, look, now))
  }

  function SetStage(s: State, e: nat, stage: Stage): State
    requires e < |s.conns|
  {
    s.(conns := s.conns[e := s.conns[e].(stage := stage)])
  }

  function ClearAll(): Action<Traced> { Change([DeleteWhere((k: Key) => true)]) }

  // ---------- Invariants ----------

  function FreeOf(e: nat): Entry<Traced> -> bool { (x: Entry<Traced>) => e !in x.value.origins }

  ghost predicate CallOk(s: State, c: nat)
    requires c < |s.calls|
  {
    var call := s.calls[c];
    && call.captured <= s.cache.revision
    && (call.phase.Bound? || call.phase.Waiting? || call.phase.Delivered? ==> call.phase.conn < |s.conns|)
    && (call.phase.Waiting? ==>
          var pending := s.conns[call.phase.conn].pending; call.phase.id in pending && pending[call.phase.id] == c)
    && (call.leads ==> call.request.IsStateRead() && !call.phase.Captured? && call.followed.None?)
    && (call.leads && !call.phase.Returned? ==> call.key in s.flights && s.flights[call.key] == c)
    && (call.followed.Some? ==>
          && call.request.IsStateRead() && call.followed.value < |s.calls|
          && s.calls[call.followed.value].leads && s.calls[call.followed.value].key == call.key
          && (call.phase == Following(call.followed.value) ||
              (call.phase.Returned? && s.calls[call.followed.value].phase == call.phase)))
    && (call.phase.Following? ==> call.followed == Some(call.phase.leader))
  }

  ghost predicate ConnOk(s: State, e: nat)
    requires e < |s.conns|
  {
    var conn := s.conns[e];
    && (conn.closed ==> conn.pending == map[])
    && (conn.stage.Rank() >= 2 ==> conn.closed)
    && (conn.stage.Rank() >= 4 ==> !conn.reading)
    && (forall id :: id in conn.pending ==>
          conn.pending[id] < |s.calls| && s.calls[conn.pending[id]].phase == Waiting(e, id))
    && (conn.stage.Rank() >= 5 ==>
          forall c :: 0 <= c < |s.calls| && s.calls[c].phase.Delivered? && s.calls[c].phase.conn == e ==>
            s.calls[c].captured < s.cache.revision)
  }

  ghost predicate FlightsOk(s: State) {
    && |s.flights| <= MAX_FLIGHTS
    && forall k :: k in s.flights ==>
         && s.flights[k] < |s.calls|
         && s.calls[s.flights[k]].leads && s.calls[s.flights[k]].key == k
         && !s.calls[s.flights[k]].phase.Returned?
  }

  /** No entry of a connection survives, or arrives after, the clearing of the cache for it. */
  ghost predicate Isolated(s: State)
    requires s.cache.Shape()
  {
    forall e :: 0 <= e < |s.conns| && s.conns[e].stage.Rank() >= 5 ==> Everywhere(s.cache, FreeOf(e))
  }

  ghost predicate Inv(s: State) {
    && s.cache.Valid()
    && (forall c :: 0 <= c < |s.calls| ==> CallOk(s, c))
    && (forall e :: 0 <= e < |s.conns| ==> ConnOk(s, e))
    && (s.active.Some? ==> s.active.value < |s.conns| && !s.conns[s.active.value].stage.Detached?)
    && FlightsOk(s)
    && Isolated(s)
  }

  function Init(limits: seq<int>, ttl: nat): (s: State)
    requires |limits| == KINDS
    ensures Inv(s)
  {
    State.State(CacheModel.State.State(seq(KINDS, i => []), limits, ttl, 0), [], [], None, map[])
  }

  // ---------- Steps that touch the cache ----------

  lemma TraceUpholds(ops: Program, from: nat, e: nat)
    requires from != e
    ensures AllUphold(Trace(ops, from), FreeOf(e))
  {
    var traced := Trace(ops, from);
    forall op | op in traced ensures Upholds(op, FreeOf(e)) {
      var i :| 0 <= i < |traced| && traced[i] == op;
      assert op == TraceOp(ops[i], from);
    }
  }

  lemma TracedRemovalsUphold(ops: Program, from: nat, e: nat)
    requires Removals(ops)
    ensures AllUphold(Trace(ops, from), FreeOf(e))
  {
    var traced := Trace(ops, from);
    forall op | op in traced ensures Upholds(op, FreeOf(e)) {
      var i :| 0 <= i < |traced| && traced[i] == op;
      assert Removal(ops[i]);
    }
  }

  lemma CacheStep(s: State, a: Action<Traced>, now: nat)
    requires Inv(s)
    requires forall e :: 0 <= e < |s.conns| && s.conns[e].stage.Rank() >= 5 ==> ActionUpholds(s.cache, a, FreeOf(e))
    ensures Inv(s.(cache := Act(s.cache, a, now)))
  {
    var t := s.(cache := Act(s.cache, a, now));
    ActValid(s.cache, a, now);
    forall c | 0 <= c < |t.calls| ensures CallOk(t, c) { assert CallOk(s, c); }
    forall e | 0 <= e < |t.conns| ensures ConnOk(t, e) { assert ConnOk(s, e); }
    forall e | 0 <= e < |t.conns| && t.conns[e].stage.Rank() >= 5 ensures Everywhere(t.cache, FreeOf(e)) {
      ActUpholds(s.cache, a, now, FreeOf(e));
    }
  }

  /** A connection that still reads, or whose cleanup has not begun, is not cleared. */
  lemma UpdateStep(s: State, e: nat, update: Update, now: nat)
    requires Inv(s) && e < |s.conns| && s.conns[e].stage.Rank() < 5
    ensures Inv(s.(cache := Act(s.cache, Change(Trace(ApplyUpdate(update), e)), now)))
  {
    forall d | 0 <= d < |s.conns| && s.conns[d].stage.Rank() >= 5
      ensures ActionUpholds(s.cache, Change(Trace(ApplyUpdate(update), e)), FreeOf(d))
    {
      TraceUpholds(ApplyUpdate(update), e, d);
    }
    CacheStep(s, Change(Trace(ApplyUpdate(update), e)), now);
  }

  /** A result of a cleared connection is fenced: a read is dropped, a mutation only removes. */
  lemma ObservationUpholds(s: State, c: nat, e: nat)
    requires Inv(s) && c < |s.calls| && s.calls[c].phase.Delivered? && s.calls[c].phase.outcome.Ok?
    requires e < |s.conns| && s.conns[e].stage.Rank() >= 5
    ensures var phase := s.calls[c].phase;
      ActionUpholds(s.cache, Observation(s.calls[c], phase.outcome.result, phase.conn), FreeOf(e))
  {
    var call := s.calls[c];
    var from, request, result := call.phase.conn, call.request, call.phase.outcome.result;
    assert CallOk(s, c) && ConnOk(s, e);
    RacedRemoves(request, result);
    TracedRemovalsUphold(InvalidateMutation(request, result), from, e);
    if from != e {
      TraceUpholds(ObserveResult(request, result), from, e);
      TraceUpholds(ObserveMutation(request, result), from, e);
    }
  }

  lemma SettleStep(s: State, step: Step)
    requires Inv(s) && Enabled(s, step) && step.Settle?
    ensures Inv(Next(s, step))
  {
    var c := step.call;
    var phase := s.calls[c].phase;
    if phase.outcome.Failed? {
      PhaseStep(s, c, Phase.Settled(phase.outcome));
    } else {
      var a := Observation(s.calls[c], phase.outcome.result, phase.conn);
      forall e | 0 <= e < |s.conns| && s.conns[e].stage.Rank() >= 5 ensures ActionUpholds(s.cache, a, FreeOf(e)) {
        ObservationUpholds(s, c, e);
      }
      CacheStep(s, a, step.now);
      PhaseStep(s.(cache := Act(s.cache, a, step.now)), c, Phase.Settled(phase.outcome));
    }
  }

  // ---------- Steps of one call ----------

  lemma ConnsSurvive(s: State, t: State, c: nat)
    requires Inv(s) && t.conns == s.conns && t.cache == s.cache && c < |s.calls| == |t.calls|
    requires forall d :: 0 <= d < |s.calls| && d != c ==> t.calls[d] == s.calls[d]
    requires !s.calls[c].phase.Waiting? && !t.calls[c].phase.Delivered?
    ensures forall e :: 0 <= e < |t.conns| ==> ConnOk(t, e)
  {
    forall e | 0 <= e < |t.conns| ensures ConnOk(t, e) { assert ConnOk(s, e); }
  }

  /** A call that neither is pending nor has returned moves on, without becoming pending, following or
      delivered. */
  lemma PhaseStep(s: State, c: nat, phase: Phase)
    requires Inv(s) && c < |s.calls|
    requires !s.calls[c].phase.Waiting? && !s.calls[c].phase.Returned? && !s.calls[c].phase.Following?
    requires phase.Issuing? || phase.Settled? || (phase.Bound? && phase.conn < |s.conns|)
    ensures Inv(SetPhase(s, c, phase))
  {
    var t := SetPhase(s, c, phase);
    assert CallOk(s, c);
    ConnsSurvive(s, t, c);
    forall d | 0 <= d < |t.calls| ensures CallOk(t, d) { assert CallOk(s, d); }
  }

  lemma BeginStep(s: State, step: Step)
    requires Inv(s) && Enabled(s, step) && step.Begin?
    ensures Inv(Next(s, step))
  {
    var t := Next(s, step);
    forall d | 0 <= d < |t.calls| ensures CallOk(t, d) { if d < |s.calls| { assert CallOk(s, d); } }
    forall e | 0 <= e < |t.conns| ensures ConnOk(t, e) { assert ConnOk(s, e); }
  }

  lemma FollowKeeps(s: State, c: nat, leader: nat)
    requires Inv(s) && c < |s.calls| && s.calls[c].phase.Captured? && s.calls[c].request.IsStateRead()
    requires s.calls[c].key in s.flights && s.flights[s.calls[c].key] == leader
    ensures Inv(s.(calls := s.calls[c := s.calls[c].(followed := Some(leader), phase := Following(leader))]))
  {
    var t := s.(calls := s.calls[c := s.calls[c].(followed := Some(leader), phase := Following(leader))]);
    assert CallOk(s, c) && CallOk(s, leader);
    ConnsSurvive(s, t, c);
    forall d | 0 <= d < |t.calls| ensures CallOk(t, d) { assert CallOk(s, d); }
  }

  lemma LeadKeeps(s: State, c: nat, key: string)
    requires Inv(s) && c < |s.calls| && s.calls[c].phase.Captured? && s.calls[c].request.IsStateRead()
    requires s.calls[c].key == key && key !in s.flights && |s.flights| < MAX_FLIGHTS
    ensures Inv(s.(calls := s.calls[c := s.calls[c].(leads := true, phase := Issuing)], flights := s.flights[key := c]))
  {
    var t := s.(calls := s.calls[c := s.calls[c].(leads := true, phase := Issuing)], flights := s.flights[key := c]);
    assert CallOk(s, c);
    ConnsSurvive(s, t, c);
    forall d | 0 <= d < |t.calls| ensures CallOk(t, d) { assert CallOk(s, d); }
  }

  lemma EnterFlightsStep(s: State, step: Step)
    requires Inv(s) && Enabled(s, step) && step.EnterFlights?
    ensures Inv(Next(s, step))
  {
    var c, key := step.call, s.calls[step.call].key;
    if !s.calls[c].request.IsStateRead() {
      PhaseStep(s, c, Issuing);
    } else if key in s.flights {
      FollowKeeps(s, c, s.flights[key]);
    } else if |s.flights| < MAX_FLIGHTS {
      LeadKeeps(s, c, key);
    } else {
      PhaseStep(s, c, Issuing);
    }
  }

  /** t is s after call c became pending under a free id. */
  ghost predicate Joins(s: State, t: State, e: nat, id: nat, c: nat) {
    && e < |s.conns| && c < |s.calls| && !s.conns[e].closed && id !in s.conns[e].pending && s.calls[c].phase == Bound(e)
    && t == s.(calls := s.calls[c := s.calls[c].(phase := Waiting(e, id))],
               conns := s.conns[e := s.conns[e].(pending := s.conns[e].pending[id := c])])
  }

  lemma JoiningConns(s: State, t: State, e: nat, id: nat, c: nat)
    requires Inv(s) && Joins(s, t, e, id, c)
    ensures forall f :: 0 <= f < |t.conns| ==> ConnOk(t, f)
  {
    forall f | 0 <= f < |t.conns| ensures ConnOk(t, f) { assert ConnOk(s, f); }
  }

  lemma JoiningCalls(s: State, t: State, e: nat, id: nat, c: nat)
    requires Inv(s) && Joins(s, t, e, id, c)
    ensures forall d :: 0 <= d < |t.calls| ==> CallOk(t, d)
  {
    assert CallOk(s, c) && ConnOk(s, e);
    forall d | 0 <= d < |t.calls| ensures CallOk(t, d) { assert CallOk(s, d); }
  }

  lemma RegisterStep(s: State, step: Step)
    requires Inv(s) && Enabled(s, step) && step.Register?
    ensures Inv(Next(s, step))
  {
    var t, c := Next(s, step), step.call;
    var e := s.calls[c].phase.conn;
    if s.conns[e].closed {
      PhaseStep(s, c, Phase.Settled(Failed("not connected")));
    } else {
      JoiningConns(s, t, e, step.id, c);
      JoiningCalls(s, t, e, step.id, c);
    }
  }

  /** t is s after call c left the broker of connection e for the given phase. */
  ghost predicate Leaves(s: State, t: State, e: nat, id: nat, c: nat, phase: Phase) {
    && e < |s.conns| && c < |s.calls|
    && id in s.conns[e].pending && s.conns[e].pending[id] == c && s.calls[c].phase == Waiting(e, id)
    && (phase.Settled? || (phase.Delivered? && phase.conn == e))
    && t == s.(calls := s.calls[c := s.calls[c].(phase := phase)],
               conns := s.conns[e := s.conns[e].(pending := s.conns[e].pending - {id})])
  }

  lemma LeavingConns(s: State, t: State, e: nat, id: nat, c: nat, phase: Phase)
    requires Inv(s) && Leaves(s, t, e, id, c, phase)
    ensures forall f :: 0 <= f < |t.conns| ==> ConnOk(t, f)
  {
    assert ConnOk(s, e);
    forall f | 0 <= f < |t.conns| ensures ConnOk(t, f) { assert ConnOk(s, f); }
  }

  lemma LeavingCalls(s: State, t: State, e: nat, id: nat, c: nat, phase: Phase)
    requires Inv(s) && Leaves(s, t, e, id, c, phase)
    ensures forall d :: 0 <= d < |t.calls| ==> CallOk(t, d)
  {
    assert CallOk(s, c);
    forall d | 0 <= d < |t.calls| ensures CallOk(t, d) { assert CallOk(s, d); }
  }

  lemma LeavingKeeps(s: State, t: State, e: nat, id: nat, c: nat, phase: Phase)
    requires Inv(s) && Leaves(s, t, e, id, c, phase)
    ensures Inv(t)
  {
    assert CallOk(s, c);
    LeavingConns(s, t, e, id, c, phase);
    LeavingCalls(s, t, e, id, c, phase);
  }

  lemma ResolveStep(s: State, step: Step)
    requires Inv(s) && Enabled(s, step) && step.Resolve?
    ensures Inv(Next(s, step))
  {
    var e, id := step.conn, step.id;
    if id in s.conns[e].pending {
      assert ConnOk(s, e);
      LeavingKeeps(s, Next(s, step), e, id, s.conns[e].pending[id], Delivered(e, step.outcome));
    }
  }

  lemma AbandonStep(s: State, step: Step)
    requires Inv(s) && Enabled(s, step) && step.Abandon?
    ensures Inv(Next(s, step))
  {
    var phase := s.calls[step.call].phase;
    if phase.Waiting? {
      assert CallOk(s, step.call);
      LeavingKeeps(s, Next(s, step), phase.conn, phase.id, step.call, Phase.Settled(Failed(step.error)));
    } else {
      PhaseStep(s, step.call, Phase.Settled(Failed(step.error)));
    }
  }

  lemma LandStep(s: State, step: Step)
    requires Inv(s) && Enabled(s, step) && step.Land?
    ensures Inv(Next(s, step))
  {
    var c := step.call;
    if s.calls[c].leads { LandLeader(s, c, s.calls[c].key); } else { LandOther(s, c); }
  }

  lemma LandOther(s: State, c: nat)
    requires Inv(s) && c < |s.calls| && s.calls[c].phase.Settled? && !s.calls[c].leads
    ensures Inv(SetPhase(s, c, Returned(s.calls[c].phase.outcome)))
  {
    var t := SetPhase(s, c, Returned(s.calls[c].phase.outcome));
    assert CallOk(s, c);
    ConnsSurvive(s, t, c);
    forall d | 0 <= d < |t.calls| ensures CallOk(t, d) { assert CallOk(s, d); }
  }

  /** The leader's own flight, and no other, leaves the table. */
  lemma LandLeader(s: State, c: nat, key: string)
    requires Inv(s) && c < |s.calls| && s.calls[c].phase.Settled? && s.calls[c].leads && s.calls[c].key == key
    ensures key in s.flights && s.flights[key] == c
    ensures Inv(SetPhase(s.(flights := s.flights - {key}), c, Returned(s.calls[c].phase.outcome)))
  {
    var t := SetPhase(s.(flights := s.flights - {key}), c, Returned(s.calls[c].phase.outcome));
    assert CallOk(s, c);
    FlightLeaves(s, t, c, key);
    ConnsSurvive(s, t, c);
    forall d | 0 <= d < |t.calls| ensures CallOk(t, d) { assert CallOk(s, d); }
  }

  lemma FlightLeaves(s: State, t: State, c: nat, key: string)
    requires FlightsOk(s) && key in s.flights && s.flights[key] == c && c < |s.calls| == |t.calls|
    requires t.flights == s.flights - {key}
    requires forall d :: 0 <= d < |s.calls| && d != c ==> t.calls[d] == s.calls[d]
    ensures FlightsOk(t)
  {
    assert t.flights.Keys <= s.flights.Keys;
    SubsetCount(t.flights.Keys, s.flights.Keys);
    assert forall k :: k in t.flights ==> t.flights[k] != c;
  }

  lemma FollowerStep(s: State, step: Step)
    requires Inv(s) && Enabled(s, step) && (step.Join? || step.StopWaiting?)
    ensures Inv(Next(s, step))
  {
    var t, c := Next(s, step), step.call;
    assert CallOk(s, c);
    ConnsSurvive(s, t, c);
    forall d | 0 <= d < |t.calls| ensures CallOk(t, d) { assert CallOk(s, d); }
  }

  // ---------- Steps of one connection ----------

  lemma DialStep(s: State)
    requires Inv(s)
    ensures Inv(Next(s, Dial))
  {
    var t := Next(s, Dial);
    forall d | 0 <= d < |t.calls| ensures CallOk(t, d) { assert CallOk(s, d); }
    forall f | 0 <= f < |t.conns| ensures ConnOk(t, f) {
      if f < |s.conns| {
        assert ConnOk(s, f);
      } else {
        forall c | 0 <= c < |t.calls| ensures !(t.calls[c].phase.Waiting? && t.calls[c].phase.conn == f) {
          assert CallOk(s, c);
        }
      }
    }
  }

  /** Every pending call gets the error, and nothing stays pending. */
  lemma CloseBrokerKeeps(s: State, e: nat, error: string)
    requires Inv(s) && e < |s.conns|
    ensures Inv(CloseBroker(s, e, error))
    ensures CloseBroker(s, e, error).conns[e].closed
  {
    var t := CloseBroker(s, e, error);
    assert ConnOk(s, e);
    if !s.conns[e].closed {
      forall c | 0 <= c < |s.calls|
        ensures t.calls[c] == if s.calls[c].phase.Waiting? && s.calls[c].phase.conn == e
                              then s.calls[c].(phase := Delivered(e, Failed(error))) else s.calls[c]
      {
        assert CallOk(s, c);
      }
      forall d | 0 <= d < |t.calls| ensures CallOk(t, d) { assert CallOk(s, d); }
      forall f | 0 <= f < |t.conns| ensures ConnOk(t, f) { assert ConnOk(s, f); }
    }
  }

  lemma FlagStep(s: State, e: nat, stage: Stage, reading: bool)
    requires Inv(s) && e < |s.conns|
    requires reading ==> s.conns[e].reading
    requires stage.Rank() >= 2 ==> s.conns[e].closed
    requires stage.Rank() >= 4 ==> !reading
    requires stage.Rank() >= 5 ==> s.conns[e].stage.Rank() >= 5
    requires stage.Detached? ==> s.active != Some(e)
    ensures Inv(s.(conns := s.conns[e := s.conns[e].(stage := stage, reading := reading)]))
  {
    var t := s.(conns := s.conns[e := s.conns[e].(stage := stage, reading := reading)]);
    assert ConnOk(s, e);
    forall d | 0 <= d < |t.calls| ensures CallOk(t, d) { assert CallOk(s, d); }
    forall f | 0 <= f < |t.conns| ensures ConnOk(t, f) { assert ConnOk(s, f); }
  }

  /** Clearing the cache for a connection empties it and puts every call of the connection, delivered
      or not, behind the fence. */
  lemma ClearStep(s: State, e: nat, now: nat)
    requires Inv(s) && e < |s.conns| && s.conns[e].stage.ReaderJoined?
    ensures Inv(SetStage(s.(cache := Act(s.cache, ClearAll(), now)), e, CacheCleared))
  {
    var u := s.(cache := Act(s.cache, ClearAll(), now));
    var t := SetStage(u, e, CacheCleared);
    CacheStep(s, ClearAll(), now);
    assert ConnOk(s, e);
    ClearEmpties(s.cache, now);
    forall d | 0 <= d < |t.calls| ensures CallOk(t, d) { assert CallOk(u, d) && CallOk(s, d); }
    forall f | 0 <= f < |t.conns| ensures ConnOk(t, f) {
      assert ConnOk(u, f);
      forall c | 0 <= c < |t.calls| ensures t.calls[c].captured < t.cache.revision { assert CallOk(s, c); }
    }
  }

  lemma ClearEmpties(cache: CacheModel.State<Traced>, now: nat)
    requires cache.Valid()
    ensures var r := Act(cache, ClearAll(), now); r.Valid() && forall k :: r.Lookup(k).None?
  {
    var t := cache.(revision := cache.revision + 1);
    var all: Op<Traced> := DeleteWhere((k: Key) => true);
    RevisionIsFree(cache, cache.revision + 1);
    SiftAllKeeps(t, Matching((k: Key) => true));
    assert Exec(t, [all], now) == Apply(t, all, now);
  }

  lemma CleanupStep(s: State, step: Step)
    requires Inv(s) && Enabled(s, step) && step.Cleanup?
    ensures Inv(Next(s, step))
  {
    var e := step.conn;
    var reading := s.conns[e].reading;
    assert ConnOk(s, e);
    match s.conns[e].stage
    case Live => FlagStep(s, e, Cancelled, reading);
    case Cancelled =>
      CloseBrokerKeeps(s, e, "disconnected");
      FlagStep(CloseBroker(s, e, "disconnected"), e, BrokerClosed, reading);
    case BrokerClosed => FlagStep(s, e, SocketClosed, reading);
    case SocketClosed => FlagStep(s, e, ReaderJoined, reading);
    case ReaderJoined => ClearStep(s, e, step.now);
    case CacheCleared =>
      var u := if s.active == Some(e) then s.(active := None) else s;
      assert Inv(u) by {
        forall d | 0 <= d < |u.calls| ensures CallOk(u, d) { assert CallOk(s, d); }
        forall f | 0 <= f < |u.conns| ensures ConnOk(u, f) { assert ConnOk(s, f); }
      }
      FlagStep(u, e, Detached, reading);
    case _ =>
  }

  lemma NextKeepsInv(s: State, step: Step)
    requires Inv(s) && Enabled(s, step)
    ensures Inv(Next(s, step))
  {
    match step
    case Begin(_) => BeginStep(s, step);
    case EnterFlights(_) => EnterFlightsStep(s, step);
    case Refuse(c, error) => PhaseStep(s, c, Phase.Settled(Failed(error)));
    case Bind(c) =>
      PhaseStep(s, c, if s.active.None? then Phase.Settled(Failed("not connected")) else Bound(s.active.value));
    case Register(_, _) => RegisterStep(s, step);
    case Resolve(_, _, _) => ResolveStep(s, step);
    case Abandon(_, _) => AbandonStep(s, step);
    case Settle(_, _) => SettleStep(s, step);
    case Land(_) => LandStep(s, step);
    case Join(_) => FollowerStep(s, step);
    case StopWaiting(_, _) => FollowerStep(s, step);
    case Receive(e, update, now) => assert ConnOk(s, e); UpdateStep(s, e, update, now);
    case Authorize(e, user, now) => UpdateStep(s, e, UserUpdated(user.id, Some(user)), now);
    case Dial => DialStep(s);
    case FailAll(e, error) => CloseBrokerKeeps(s, e, error);
    case StopReader(e) => assert ConnOk(s, e); FlagStep(s, e, s.conns[e].stage, false);
    case Cleanup(_, _) => CleanupStep(s, step);
    case Invalidate(matches, now) => CacheStep(s, Change([DeleteWhere(matches)]), now);
    case Look(look, now) => CacheStep(s, look, now);
  }
}
