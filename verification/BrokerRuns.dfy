/** The broker under interleaving: drawing an id, inserting it, and sending on a call's channel happen
    apart from the regions under the lock, so each is a step of its own. */
module BrokerRuns {
  import opened Wrappers
  import opened RpcBroker

  datatype Fate<R> =
    | Pending
    | Claimed(outcome: Outcome<R>) // out of the table, the send still owed
    | Sent(outcome: Outcome<R>)
    | Cancelled

  /** draw is the position in the broker's sequence of draws at which the call's id was drawn. */
  datatype Call<R> = Call(id: nat, draw: nat, fate: Fate<R>, buffer: seq<Outcome<R>>, received: seq<Outcome<R>>)

  datatype State<R> = State(draws: nat, held: set<nat>, pending: map<nat, nat>, closed: bool, calls: seq<Call<R>>)

  datatype Step<R> =
    | DrawId                       // nextID.Add(1) by a registering caller
    | Insert(draw: nat)            // its region under the lock
    | Resolve(id: nat, result: R)
    | Cancel(id: nat, only: Option<nat>)
    | FailAll(error: string)
    | Send(call: nat)
    | Receive(call: nat)

  predicate Enabled<R>(s: State<R>, step: Step<R>) {
    match step
    case Insert(draw) => draw in s.held
    case Send(c) => c < |s.calls| && s.calls[c].fate.Claimed?
    case Receive(c) => c < |s.calls| && s.calls[c].buffer != []
    case _ => true
  }

  function SetFate<R>(s: State<R>, c: nat, fate: Fate<R>): State<R> {
    if c < |s.calls| then s.(calls := s.calls[c := s.calls[c].(fate := fate)]) else s
  }

  function ClaimAll<R>(calls: seq<Call<R>>, pending: map<nat, nat>, outcome: Outcome<R>): (r: seq<Call<R>>)
    ensures |r| == |calls|
    ensures forall c :: 0 <= c < |calls| ==>
      r[c] == if c in pending.Values then calls[c].(fate := Claimed(outcome)) else calls[c]
  {
    seq(|calls|, c requires 0 <= c < |calls| =>
      if c in pending.Values then calls[c].(fate := Claimed(outcome)) else calls[c])
  }

  function Next<R>(s: State<R>, step: Step<R>): State<R> {
    match step
    case DrawId => s.(draws := s.draws + 1, held := s.held + {s.draws + 1})
    case Insert(draw) =>
      var t := s.(held := s.held - {draw});
      var id := Draw(0, draw);
      if id == 0 || s.closed || id in s.pending then t
      else t.(pending := s.pending[id := |s.calls|], calls := s.calls + [Call(id, draw, Pending, [], [])])
    case Resolve(id, result) =>
      if id in s.pending then SetFate(s.(pending := s.pending - {id}), s.pending[id], Claimed(Result(result))) else s
    case Cancel(id, call) =>
      if id in s.pending && (call.None? || call.value == s.pending[id])
      then SetFate(s.(pending := s.pending - {id}), s.pending[id], Cancelled) else s
    case FailAll(error) =>
      if s.closed then s
      else s.(closed := true, pending := map[], calls := ClaimAll(s.calls, s.pending, Error(error)))
    case Send(c) =>
      if c < |s.calls| && s.calls[c].fate.Claimed? then
        var call := s.calls[c];
        s.(calls := s.calls[c := call.(fate := Sent(call.fate.outcome), buffer := call.buffer + [call.fate.outcome])])
      else s
    case Receive(c) =>
      if c < |s.calls| && s.calls[c].buffer != [] then
        var call := s.calls[c];
        s.(calls := s.calls[c := call.(buffer := call.buffer[1..], received := call.received + [call.buffer[0]])])
      else s
  }

  // ---------- Invariant ----------

  ghost predicate CallOk<R(!new)>(s: State<R>, c: nat)
    requires c < |s.calls|
  {
    var call := s.calls[c];
    && call.received + call.buffer == (if call.fate.Sent? then [call.fate.outcome] else [])
    && (call.fate.Pending? ==> call.id in s.pending && s.pending[call.id] == c)
    && call.id == Draw(0, call.draw) != 0 && 1 <= call.draw <= s.draws && call.draw !in s.held
  }

  /** The table holds exactly the calls that are pending, and no draw is used twice. */
  ghost predicate Inv<R(!new)>(s: State<R>) {
    && (forall c :: 0 <= c < |s.calls| ==> CallOk(s, c))
    && (forall c, d :: 0 <= c < d < |s.calls| ==> s.calls[c].draw != s.calls[d].draw)
    && (forall draw :: draw in s.held ==> 1 <= draw <= s.draws)
    && (forall id :: id in s.pending ==>
          s.pending[id] < |s.calls| && s.calls[s.pending[id]].id == id && s.calls[s.pending[id]].fate.Pending?)
    && (s.closed ==> s.pending == map[])
  }

  lemma DrawStepKeeps<R(!new)>(s: State<R>, step: Step<R>)
    requires Inv(s) && Enabled(s, step) && (step.DrawId? || step.Insert?)
    ensures Inv(Next(s, step))
  {
    var t := Next(s, step);
    forall c | 0 <= c < |t.calls| ensures CallOk(t, c) { if c < |s.calls| { assert CallOk(s, c); } }
    forall c, d | 0 <= c < d < |t.calls| ensures t.calls[c].draw != t.calls[d].draw { assert CallOk(s, c); }
  }

  lemma LeaveStepKeeps<R(!new)>(s: State<R>, step: Step<R>)
    requires Inv(s) && (step.Resolve? || step.Cancel?)
    ensures Inv(Next(s, step))
  {
    var t := Next(s, step);
    forall c | 0 <= c < |t.calls| ensures CallOk(t, c) { assert CallOk(s, c); }
  }

  lemma FailAllKeeps<R(!new)>(s: State<R>, step: Step<R>)
    requires Inv(s) && step.FailAll?
    ensures Inv(Next(s, step))
    ensures !s.closed ==> forall c :: 0 <= c < |s.calls| ==>
      (Next(s, step).calls[c] ==
       if s.calls[c].fate.Pending? then s.calls[c].(fate := Claimed(Error(step.error))) else s.calls[c])
  {
    var t := Next(s, step);
    forall c | 0 <= c < |t.calls|
      ensures CallOk(t, c)
      ensures !s.closed ==>
        (t.calls[c] == if s.calls[c].fate.Pending? then s.calls[c].(fate := Claimed(Error(step.error))) else s.calls[c])
    {
      assert CallOk(s, c);
    }
  }

  lemma ChannelStepKeeps<R(!new)>(s: State<R>, step: Step<R>)
    requires Inv(s) && Enabled(s, step) && (step.Send? || step.Receive?)
    ensures Inv(Next(s, step))
  {
    var t := Next(s, step);
    assert CallOk(s, step.call);
    forall c | 0 <= c < |t.calls| ensures CallOk(t, c) { assert CallOk(s, c); }
  }

  ghost predicate IsRun<R(!new)>(states: seq<State<R>>, steps: seq<Step<R>>) {
    && |states| == |steps| + 1
    && states[0] == State(0, {}, map[], false, [])
    && forall i {:trigger steps[i]} :: 0 <= i < |steps| ==>
         Enabled(states[i], steps[i]) && states[i + 1] == Next(states[i], steps[i])
  }

  lemma {:induction false} RunKeepsInv<R(!new)>(states: seq<State<R>>, steps: seq<Step<R>>, i: nat)
    requires IsRun(states, steps) && i < |states|
    ensures Inv(states[i])
  {
    if i > 0 {
      var s, step := states[i - 1], steps[i - 1];
      RunKeepsInv(states, steps, i - 1);
      assert states[i - 1 + 1] == Next(s, step);
      if step.FailAll? { FailAllKeeps(s, step); }
      else if step.Send? || step.Receive? { ChannelStepKeeps(s, step); }
      else if step.DrawId? || step.Insert? { DrawStepKeeps(s, step); }
      else { LeaveStepKeeps(s, step); }
    }
  }

  /** A call's fate only moves from pending to claimed to sent, or from pending to cancelled. */
  ghost predicate FateFollows<R(!new)>(a: Fate<R>, b: Fate<R>) {
    a == b || a.Pending? || (a.Claimed? && b == Sent(a.outcome))
  }

  /** Calls stay, each with its id and a fate that follows; a closed broker stays closed. */
  ghost predicate Follows<R(!new)>(s: State<R>, t: State<R>) {
    && |s.calls| <= |t.calls| && (s.closed ==> t.closed)
    && forall c :: 0 <= c < |s.calls| ==>
         FateFollows(s.calls[c].fate, t.calls[c].fate) && t.calls[c].id == s.calls[c].id
  }

  lemma FailAllFollows<R(!new)>(s: State<R>, step: Step<R>)
    requires Inv(s) && step.FailAll?
    ensures Follows(s, Next(s, step))
  {
    FailAllKeeps(s, step);
  }

  lemma NextFollows<R(!new)>(s: State<R>, step: Step<R>)
    requires Inv(s) && Enabled(s, step)
    ensures Follows(s, Next(s, step))
  {
    if step.FailAll? {
      FailAllFollows(s, step);
    } else {
      var t := Next(s, step);
      forall c | 0 <= c < |s.calls|
        ensures FateFollows(s.calls[c].fate, t.calls[c].fate) && t.calls[c].id == s.calls[c].id
      {
        assert CallOk(s, c);
      }
    }
  }

  lemma FollowsTrans<R(!new)>(s: State<R>, t: State<R>, u: State<R>)
    requires Follows(s, t) && Follows(t, u)
    ensures Follows(s, u)
  {
    forall c | 0 <= c < |s.calls| ensures FateFollows(s.calls[c].fate, u.calls[c].fate) {
      assert FateFollows(s.calls[c].fate, t.calls[c].fate) && FateFollows(t.calls[c].fate, u.calls[c].fate);
    }
  }

  lemma {:induction false} FatesFollow<R(!new)>(states: seq<State<R>>, steps: seq<Step<R>>, i: nat, j: nat)
    requires IsRun(states, steps) && i <= j < |states|
    ensures Follows(states[i], states[j])
    decreases j
  {
    if i < j {
      var k := j - 1;
      FatesFollow(states, steps, i, k);
      RunKeepsInv(states, steps, k);
      NextFollows(states[k], steps[k]);
      FollowsTrans(states[i], states[k], states[k + 1]);
    }
  }

  /** In every run each call is pending, claimed, sent or cancelled, and pending exactly if it is in the
      table; it receives at most one outcome, the one it was claimed with; and a send owed to it never
      blocks, since its channel is empty. */
  lemma ExactlyOnceCompletion<R(!new)>(states: seq<State<R>>, steps: seq<Step<R>>, i: nat, c: nat)
    requires IsRun(states, steps) && i < |states| && c < |states[i].calls|
    ensures var s, call := states[i], states[i].calls[c];
      && (call.fate.Pending? <==> call.id in s.pending && s.pending[call.id] == c)
      && |call.received + call.buffer| <= 1
      && (call.received + call.buffer != [] <==> call.fate.Sent?)
      && (call.fate.Sent? ==> call.received + call.buffer == [call.fate.outcome])
      && (Enabled(s, Send(c)) ==> call.buffer == [])
      && (s.closed ==> s.pending == map[])
  {
    RunKeepsInv(states, steps, i);
    assert CallOk(states[i], c);
  }

  /** Once claimed with an outcome, a call gets that outcome or, as yet, nothing. */
  lemma ClaimedStays<R(!new)>(states: seq<State<R>>, steps: seq<Step<R>>, i: nat, later: nat, c: nat)
    requires IsRun(states, steps) && i <= later < |states| && c < |states[i].calls| && states[i].calls[c].fate.Claimed?
    ensures c < |states[later].calls|
    ensures var call, outcome := states[later].calls[c], states[i].calls[c].fate.outcome;
      || (call.fate == Claimed(outcome) && call.received + call.buffer == [])
      || (call.fate == Sent(outcome) && call.received + call.buffer == [outcome])
  {
    FatesFollow(states, steps, i, later);
    assert FateFollows(states[i].calls[c].fate, states[later].calls[c].fate);
    RunKeepsInv(states, steps, later);
    assert CallOk(states[later], c);
  }

  lemma ClosedStaysEmpty<R(!new)>(states: seq<State<R>>, steps: seq<Step<R>>, i: nat, later: nat)
    requires IsRun(states, steps) && i <= later < |states| && states[i].closed
    ensures states[later].pending == map[]
  {
    FatesFollow(states, steps, i, later);
    RunKeepsInv(states, steps, later);
  }

  /** Every call that was pending when the broker failed gets that error and nothing else, and nothing
      is ever pending again. */
  lemma FailAllFailsEachOnce<R(!new)>(states: seq<State<R>>, steps: seq<Step<R>>, fail: nat, later: nat, c: nat)
    requires IsRun(states, steps) && fail < later < |states|
    requires steps[fail].FailAll? && !states[fail].closed
    requires c < |states[fail].calls| && states[fail].calls[c].fate.Pending?
    ensures states[later].pending == map[] && c < |states[later].calls|
    ensures var call, error := states[later].calls[c], Error(steps[fail].error);
      call.fate == Claimed(error) || (call.fate == Sent(error) && call.received + call.buffer == [error])
  {
    FailAllClaims(states, steps, fail, c);
    ClaimedStays(states, steps, fail + 1, later, c);
    ClosedStaysEmpty(states, steps, fail + 1, later);
  }

  /** A drawn id that is nonzero, not taken and inserted before the broker closes becomes a new pending call,
      which has received nothing; any other insertion registers none. */
  lemma InsertRegisters<R(!new)>(states: seq<State<R>>, steps: seq<Step<R>>, i: nat)
    requires IsRun(states, steps) && i < |steps| && steps[i].Insert?
    ensures var s, t, id := states[i], states[i + 1], steps[i].draw % 0x1_0000_0000;
      if id != 0 && !s.closed && id !in s.pending then
        && t.calls == s.calls + [Call(id, steps[i].draw, Pending, [], [])]
        && t.pending == s.pending[id := |s.calls|]
      else t.calls == s.calls && t.pending == s.pending
  {
    RunKeepsInv(states, steps, i);
    assert states[i + 1] == Next(states[i], steps[i]);
  }

  /** The outcome a call was claimed with is sent into its empty channel and received from there. */
  lemma OutcomeIsReceived<R(!new)>(states: seq<State<R>>, steps: seq<Step<R>>, i: nat, c: nat)
    requires IsRun(states, steps) && i < |steps| && (steps[i] == Send(c) || steps[i] == Receive(c))
    ensures c < |states[i].calls| == |states[i + 1].calls|
    ensures var before, after := states[i].calls[c], states[i + 1].calls[c];
      if steps[i].Send? then
        before.fate.Claimed? && after.fate == Sent(before.fate.outcome) && after.buffer == [before.fate.outcome]
      else
        before.fate.Sent? && after.fate == before.fate && after.buffer == [] && after.received == [before.fate.outcome]
  {
    RunKeepsInv(states, steps, i);
    assert CallOk(states[i], c);
    assert states[i + 1] == Next(states[i], steps[i]);
  }

  lemma ResolveClaims<R(!new)>(states: seq<State<R>>, steps: seq<Step<R>>, i: nat, c: nat)
    requires IsRun(states, steps) && i < |steps| && steps[i].Resolve?
    requires c < |states[i].calls| && states[i].calls[c].fate.Pending? && states[i].calls[c].id == steps[i].id
    ensures c < |states[i + 1].calls| && states[i + 1].calls[c].fate == Claimed(Result(steps[i].result))
  {
    RunKeepsInv(states, steps, i);
    assert CallOk(states[i], c);
    assert states[i + 1] == Next(states[i], steps[i]);
  }

  /** A result that arrives while a call is pending under its id is the one outcome that call ever gets, in
      every continuation. */
  lemma ResultReachesItsCall<R(!new)>(states: seq<State<R>>, steps: seq<Step<R>>, i: nat, later: nat, c: nat)
    requires IsRun(states, steps) && i < later < |states| && steps[i].Resolve?
    requires c < |states[i].calls| && states[i].calls[c].fate.Pending? && states[i].calls[c].id == steps[i].id
    ensures c < |states[later].calls|
    ensures var call, outcome := states[later].calls[c], Result(steps[i].result);
      || (call.fate == Claimed(outcome) && call.received + call.buffer == [])
      || (call.fate == Sent(outcome) && call.received + call.buffer == [outcome])
  {
    ResolveClaims(states, steps, i, c);
    ClaimedStays(states, steps, i + 1, later, c);
  }

  /** A cancellation in the call's own name, or in none, takes the pending call out for good: it never gets
      anything. One in another's name leaves it pending. */
  lemma CancelledGetsNothing<R(!new)>(states: seq<State<R>>, steps: seq<Step<R>>, i: nat, later: nat, c: nat)
    requires IsRun(states, steps) && i < later < |states| && steps[i].Cancel?
    requires c < |states[i].calls| && states[i].calls[c].fate.Pending? && states[i].calls[c].id == steps[i].id
    ensures c < |states[i + 1].calls| && c < |states[later].calls|
    ensures var call := states[later].calls[c];
      if steps[i].only in {None, Some(c)} then call.fate.Cancelled? && call.received + call.buffer == []
      else states[i + 1].calls[c] == states[i].calls[c]
  {
    RunKeepsInv(states, steps, i);
    assert CallOk(states[i], c);
    assert states[i + 1] == Next(states[i], steps[i]);
    FatesFollow(states, steps, i + 1, later);
    assert FateFollows(states[i + 1].calls[c].fate, states[later].calls[c].fate);
    RunKeepsInv(states, steps, later);
    assert CallOk(states[later], c);
  }

  lemma FailAllClaims<R(!new)>(states: seq<State<R>>, steps: seq<Step<R>>, fail: nat, c: nat)
    requires IsRun(states, steps) && fail < |steps|
    requires steps[fail].FailAll? && !states[fail].closed
    requires c < |states[fail].calls| && states[fail].calls[c].fate.Pending?
    ensures var t := states[fail + 1];
      t.closed && c < |t.calls| && t.calls[c].fate == Claimed(Error(steps[fail].error))
  {
    var s, step := states[fail], steps[fail];
    RunKeepsInv(states, steps, fail);
    FailAllKeeps(s, step);
  }

  /** An unknown result changes nothing. */
  lemma UnknownResultChangesNothing<R(!new)>(s: State<R>, id: nat, result: R)
    ensures id !in s.pending <==> Next(s, Resolve(id, result)) == s
  {
    if id in s.pending {
      assert id !in Next(s, Resolve(id, result)).pending;
    }
  }

  /** Two calls share an id only if 2^32 draws, and so every id, came in between. So a late result of a
      cancelled call can reach a newer one only after a full wrap. */
  lemma IdsReturnAfterFullWrap<R(!new)>(states: seq<State<R>>, steps: seq<Step<R>>, i: nat, c: nat, d: nat, id: nat)
    requires IsRun(states, steps) && i < |states| && c < |states[i].calls| && d < |states[i].calls| && c != d
    requires states[i].calls[c].id == states[i].calls[d].id && states[i].calls[c].draw <= states[i].calls[d].draw
    requires id < SPAN
    ensures var m, n := states[i].calls[c].draw, states[i].calls[d].draw;
      n - m >= SPAN && exists k :: m < k <= n && Draw(0, k) == id
  {
    RunKeepsInv(states, steps, i);
    assert CallOk(states[i], c) && CallOk(states[i], d);
    var m, n := states[i].calls[c].draw, states[i].calls[d].draw;
    assert m != n;
    DrawsDiffer(0, m, n);
    EveryIdIsDrawn(m, id);
  }

  /** A result for a call that is no longer pending changes nothing, unless a newer call holds its id,
      for which every id was drawn since. */
  lemma LateResultsAreIgnored<R(!new)>(states: seq<State<R>>, steps: seq<Step<R>>, i: nat, c: nat)
    requires IsRun(states, steps) && i < |steps| && steps[i].Resolve?
    requires c < |states[i].calls| && steps[i].id == states[i].calls[c].id && !states[i].calls[c].fate.Pending?
    ensures var s := states[i];
      || states[i + 1] == s
      || (s.calls[c].id in s.pending && s.pending[s.calls[c].id] < |s.calls| && s.pending[s.calls[c].id] != c
          && Apart(s.calls[c].draw, s.calls[s.pending[s.calls[c].id]].draw))
    ensures c < |states[i + 1].calls| && states[i + 1].calls[c] == states[i].calls[c]
  {
    var s, id := states[i], steps[i].id;
    RunKeepsInv(states, steps, i);
    UnknownResultChangesNothing(s, id, steps[i].result);
    assert CallOk(s, c);
    if id in s.pending {
      var d := s.pending[id];
      assert CallOk(s, d);
      if s.calls[c].draw <= s.calls[d].draw {
        IdsReturnAfterFullWrap(states, steps, i, c, d, 0);
      } else {
        IdsReturnAfterFullWrap(states, steps, i, d, c, 0);
      }
    }
  }

  /** The two draws are a full wrap of the ids apart. */
  predicate Apart(m: nat, n: nat) { n - m >= SPAN || m - n >= SPAN }

  lemma EveryIdIsDrawn(m: nat, id: nat)
    requires id < SPAN
    ensures exists k :: m < k <= m + SPAN && Draw(0, k) == id
  {
    var q := m / SPAN;
    assert m == SPAN * q + m % SPAN;
    var k := if id > m % SPAN then SPAN * q + id else SPAN * (q + 1) + id;
    assert k % SPAN == id by { DrawOf(if id > m % SPAN then q else q + 1, id); }
    assert Draw(0, k) == id;
  }

  lemma DrawOf(q: nat, id: nat)
    requires id < SPAN
    ensures (SPAN * q + id) % SPAN == id
  {
  }
}
