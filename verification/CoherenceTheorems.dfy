/** What holds over every run of the client against the server: complete entries are the server's at a
    state of its log, and exactly when the stored user of an authorization is outdated. */
module CoherenceTheorems {
  import opened Wrappers
  import opened EntityKeys
  import opened Recency
  import opened CacheModel
  import opened CacheTheorems
  import opened Projection
  import opened ProjectionTheorems
  import opened ProjectionGuarantees
  import opened Lookups
  import opened Coherence
  import opened CoherenceSteps

  /** The client before its first connection: one server state, nothing cached. */
  function Init(server: Snapshot, limits: seq<int>, ttl: nat): (s: Sys)
    requires |limits| == KINDS
    ensures Inv(s)
  {
    Coherence.State.State([Record(None, server)], 0, false, [],
                          CacheModel.State.State(seq(KINDS, i => []), limits, ttl, 0), [], Unasked, None)
  }

  ghost predicate Initial(s: Sys) {
    exists server, limits, ttl :: |limits| == KINDS && s == Init(server, limits, ttl)
  }

  ghost predicate IsRun(states: seq<Sys>, steps: seq<Step>) {
    && |states| == |steps| + 1
    && Initial(states[0])
    && forall i {:trigger steps[i]} :: 0 <= i < |steps| ==>
         Enabled(states[i], steps[i]) && states[i + 1] == Next(states[i], steps[i])
  }

  lemma {:induction false} RunKeepsInv(states: seq<Sys>, steps: seq<Step>, i: nat)
    requires IsRun(states, steps) && i < |states|
    ensures Inv(states[i])
  {
    if i > 0 {
      var k := i - 1;
      RunKeepsInv(states, steps, k);
      NextKeepsInv(states[k], steps[k]);
    }
  }

  // ---------- The log ----------

  lemma NextGrowsLog(s: Sys, step: Step)
    requires Enabled(s, step)
    ensures s.log <= Next(s, step).log && |Next(s, step).log| <= |s.log| + 1
  {
  }

  /** The log only grows, a state at a time, so each of its states was the server's at some moment. */
  lemma {:induction false} LoggedWasCurrent(states: seq<Sys>, steps: seq<Step>, i: nat, p: nat) returns (j: nat)
    requires IsRun(states, steps) && i < |states| && p < |states[i].log|
    ensures j <= i && states[j].log == states[i].log[..p + 1]
    decreases i
  {
    if |states[i].log| == p + 1 {
      j := i;
    } else {
      var k := i - 1;
      NextGrowsLog(states[k], steps[k]);
      assert states[k + 1] == Next(states[k], steps[k]);
      j := LoggedWasCurrent(states, steps, k, p);
    }
  }

  function UpdatesIn(stream: seq<Frame>): seq<Update> {
    if stream == [] then []
    else (if stream[0].UpdateFrame? then [stream[0].update] else []) + UpdatesIn(stream[1..])
  }

  function UpdatesOf(log: seq<Record>): seq<Option<Update>> {
    if log == [] then [] else [log[0].update] + UpdatesOf(log[1..])
  }

  function Given(updates: seq<Update>): seq<Option<Update>> {
    if updates == [] then [] else [Some(updates[0])] + Given(updates[1..])
  }

  lemma {:induction false} PendingIsTheRest(log: seq<Record>, applied: nat, stream: seq<Frame>, calls: seq<Call>)
    requires applied < |log| && Leads(log, applied, stream, calls)
    ensures UpdatesOf(log[applied + 1..]) == Given(UpdatesIn(stream))
    decreases |stream|
  {
    if stream != [] {
      if stream[0].UpdateFrame? {
        PendingIsTheRest(log, applied + 1, stream[1..], calls);
        assert log[applied + 1..][1..] == log[applied + 2..];
        assert UpdatesIn(stream)[1..] == UpdatesIn(stream[1..]);
      } else {
        PendingIsTheRest(log, applied, stream[1..], calls);
        assert [] + UpdatesIn(stream[1..]) == UpdatesIn(stream[1..]);
      }
    }
  }

  // ---------- Coherence ----------

  /** In every run, across reconnects and authorizations, every complete cached entry is the server's at
      the state of its log up to which updates were handled: the updates still in the stream are exactly
      those logged after it. The one exception is the key of a stored user that updates handled before the
      store had changed. While disconnected nothing is cached. */
  lemma ReadCoherence(states: seq<Sys>, steps: seq<Step>, i: nat, k: Key)
    requires IsRun(states, steps) && i < |states|
    ensures var s := states[i];
      && s.Shape()
      && (s.risk != Some(k) ==> CoherentAt(s.cache, s.View(), k))
      && (s.risk.Some? ==>
            s.auth.Stored? && s.risk.value == UserKey(s.auth.user) && !StillSaid(s.auth.user, s.auth.since))
      && (s.connected ==> UpdatesOf(s.log[s.applied + 1..]) == Given(UpdatesIn(s.stream)))
      && (!s.connected ==> s.cache.Lookup(k).None?)
  {
    RunKeepsInv(states, steps, i);
    var s := states[i];
    if s.connected { PendingIsTheRest(s.log, s.applied, s.stream, s.calls); }
  }

  /** s is the moment at which the server was in the state up to which t has handled updates. */
  ghost predicate Shows(s: Sys, t: Sys)
    requires t.Shape()
  {
    s.Shape() && s.Server() == t.View() && s.log == t.log[..t.applied + 1]
  }

  /** The state that the cache agrees with is one the server was in, at the moment its log ended there. */
  lemma ViewWasCurrent(states: seq<Sys>, steps: seq<Step>, i: nat)
    requires IsRun(states, steps) && i < |states|
    ensures states[i].Shape()
    ensures exists j {:trigger states[j]} :: 0 <= j <= i && Shows(states[j], states[i])
  {
    RunKeepsInv(states, steps, i);
    var j := LoggedWasCurrent(states, steps, i, states[i].applied);
    RunKeepsInv(states, steps, j);
    assert Shows(states[j], states[i]);
  }

  /** The read is answered, and nothing committed since it captured the revision. */
  predicate Effective(s: Sys, c: nat) {
    s.Shape() && c < |s.calls| && s.calls[c].phase.Answered? && s.calls[c].captured == s.cache.revision
  }

  /** Whatever a read that takes effect carries is the server's after exactly the updates handled so far,
      and is what the cache holds of it afterwards, completely, if it has room for it at all. */
  lemma EffectiveReadIsCurrent(states: seq<Sys>, steps: seq<Step>, i: nat, k: Key)
    requires IsRun(states, steps) && i < |steps| && steps[i].Settle? && Effective(states[i], steps[i].read)
    requires var call := states[i].calls[steps[i].read];
      LastFor(CarriedByResult(call.request, call.phase.result), k).Some?
    ensures var s, t, call := states[i], states[i + 1], states[i].calls[steps[i].read];
      var carried := LastFor(CarriedByResult(call.request, call.phase.result), k).value;
      && s.connected && t.Shape() && t.View() == s.View() && Holds(t.View(), k, carried)
      && (t.cache.Lookup(k).Some? ==> !t.cache.Lookup(k).value.partial && t.cache.Lookup(k).value.value == carried)
  {
    RunKeepsInv(states, steps, i);
    SettledRead(states[i], steps[i], k);
  }

  lemma SettledRead(s: Sys, step: Step, k: Key)
    requires Inv(s) && step.Settle? && Effective(s, step.read)
    requires LastFor(CarriedByResult(s.calls[step.read].request, s.calls[step.read].phase.result), k).Some?
    ensures var t, call := Next(s, step), s.calls[step.read];
      var carried := LastFor(CarriedByResult(call.request, call.phase.result), k).value;
      && s.connected && t.Shape() && t.View() == s.View() && Holds(t.View(), k, carried)
      && (t.cache.Lookup(k).Some? ==> !t.cache.Lookup(k).value.partial && t.cache.Lookup(k).value.value == carried)
  {
    var call := s.calls[step.read];
    EffectiveIsTruthful(s, step.read);
    SettleObserves(s, step);
    SettledEntry(s.cache, Next(s, step).cache, call.request, call.phase.result, step.now, k);
  }

  lemma SettleObserves(s: Sys, step: Step)
    requires step.Settle? && Effective(s, step.read)
    ensures var t, call := Next(s, step), s.calls[step.read];
      && t.Shape() && t.View() == s.View()
      && t.cache == Exec(s.cache, ObserveResult(call.request, call.phase.result), step.now)
  {
  }

  lemma EffectiveIsTruthful(s: Sys, c: nat)
    requires Inv(s) && Effective(s, c)
    ensures s.connected && Truthful(s.calls[c].request, s.calls[c].phase.result, s.View())
  {
    assert CallOk(s, c);
  }

  lemma SettledEntry(cache: CacheModel.State<Value>, r: CacheModel.State<Value>, request: Request, result: Result,
                     now: nat, k: Key)
    requires cache.Valid() && r == Exec(cache, ObserveResult(request, result), now)
    requires LastFor(CarriedByResult(request, result), k).Some?
    ensures r.Lookup(k).Some? ==>
      !r.Lookup(k).value.partial && r.Lookup(k).value.value == LastFor(CarriedByResult(request, result), k).value
  {
    ObservedLookup(cache, request, result, now, k);
    ExecValid(cache, ObserveResult(request, result), now);
    if r.Lookup(k).Some? { assert r.ListOk(k.kind); }
  }

  /** With room, such a read is stored: every entity it carries is cached completely, unless the result
      withdraws its community. */
  lemma EffectiveReadIsStored(states: seq<Sys>, steps: seq<Step>, i: nat, k: Key, carried: Value)
    requires IsRun(states, steps) && i < |steps| && steps[i].Settle? && Effective(states[i], steps[i].read)
    requires var s, call := states[i], states[i].calls[steps[i].read];
      Storable(s.cache, call.request, call.phase.result, k, carried)
    ensures states[i + 1].cache.Shape()
    ensures states[i + 1].cache.Lookup(k) ==
            Some(Entry(k, carried, false, steps[i].now + states[i + 1].cache.ttl))
  {
    var call := states[i].calls[steps[i].read];
    RunKeepsInv(states, steps, i);
    SettleObserves(states[i], steps[i]);
    CarriedWithRoom(states[i].cache, call.request, call.phase.result, steps[i].now, k, carried);
  }

  /** The result carries the entity for k, does not withdraw its community, and its kind has room. */
  ghost predicate Storable(cache: CacheModel.State<Value>, request: Request, result: Result, k: Key, carried: Value)
    requires cache.Shape()
  {
    && LastFor(CarriedByResult(request, result), k) == Some(carried) && !Unavailable(result, k)
    && k.id != 0 && cache.Enabled(k.kind) && HasRoom(cache, ObserveResult(request, result), k.kind)
  }

  lemma CarriedWithRoom(cache: CacheModel.State<Value>, request: Request, result: Result, now: nat, k: Key,
                        carried: Value)
    requires cache.Valid() && Storable(cache, request, result, k, carried)
    ensures var r := Exec(cache, ObserveResult(request, result), now);
      r.ttl == cache.ttl && r.Lookup(k) == Some(Entry(k, carried, false, now + cache.ttl))
  {
    ObservedWithRoom(cache, request, result, now, k);
  }

  /** With room, a handled update is stored: every key holds what the update makes of it. */
  lemma HandledUpdateIsStored(states: seq<Sys>, steps: seq<Step>, i: nat, k: Key)
    requires IsRun(states, steps) && i < |steps| && steps[i].Handle? && states[i].stream != []
    requires states[i].stream[0].UpdateFrame? && states[i].cache.Shape() && states[i].cache.ttl > 0
    requires HasRoom(states[i].cache, ApplyUpdate(states[i].stream[0].update), k.kind)
    ensures var s, t, update, now := states[i], states[i + 1], states[i].stream[0].update, steps[i].now;
      && t.Shape() && t.applied == s.applied + 1 && t.stream == s.stream[1..]
      && t.cache.revision == s.cache.revision + 1
      && t.cache.Lookup(k) ==
         AppliedFate(update, k, s.cache.Lookup(k), s.cache.Enabled(k.kind), now + s.cache.ttl, now)
  {
    RunKeepsInv(states, steps, i);
    UpdatedLookup(states[i].cache, states[i].stream[0].update, steps[i].now, k);
    assert states[i + 1] == Next(states[i], steps[i]);
  }

  /** An answer that reaches a waiting read is kept for it, with the revision it captured when it began. */
  lemma AnswersAreKept(states: seq<Sys>, steps: seq<Step>, i: nat)
    requires IsRun(states, steps) && i < |steps|
    ensures var s, t := states[i], states[i + 1];
      match steps[i]
      case Begin(request) => t.calls == s.calls + [Call(request, s.cache.revision, Captured)]
      case Handle(_) => s.stream != [] && (s.stream[0].ResultFrame? ==>
        var c := s.stream[0].call;
        c < |s.calls| && s.calls[c].phase.Sent? ==>
          c < |t.calls| && t.calls[c] == Call(s.calls[c].request, s.calls[c].captured, Answered(s.stream[0].result)))
      case _ => true
  {
    assert states[i + 1] == Next(states[i], steps[i]);
  }

  // ---------- Authorization ----------

  /** The authorized user can be stored without harm: the updates handled since the answer leave it what
      it was, or it is not cached at all. */
  ghost predicate Harmless(s: Sys)
    requires s.Shape() && s.auth.Told?
  {
    s.auth.user.id == 0 || !s.cache.Enabled(USER) || StillSaid(s.auth.user, s.auth.since)
  }

  lemma StoreOutcome(s: Sys, now: nat)
    requires Inv(s) && s.auth.Told?
    ensures var user := s.auth.user;
      var r := Act(s.cache, Change(ApplyUpdate(Authorized(user))), now);
      && (Harmless(s) ==> CoherentAt(r, s.View(), UserKey(user)))
      && (CoherentAt(r, s.View(), UserKey(user)) && !Harmless(s) ==>
            HeardAll(Says(UserV(user)), s.auth.since, UserKey(user)).Withdrawn? && !ToldOfUsers(s.log))
  {
    StoringUser(s.cache, s.auth.user, s.View(), now, UserKey(s.auth.user));
  }

  /** Storing the authorized user keeps its key coherent if the updates handled between the answer and the
      store leave the user what it was, as they do if none mentions it, or if the user is not cached at
      all. It does so only then, unless they withdrew a user that the server silently has again, which
      updates that tell of every user that comes or goes exclude. */
  lemma AuthorizationCoherentIff(states: seq<Sys>, steps: seq<Step>, i: nat)
    requires IsRun(states, steps) && i < |steps| && steps[i].Store? && states[i].auth.Told?
    ensures var s, t, user, since := states[i], states[i + 1], states[i].auth.user, states[i].auth.since;
      && s.Shape() && t.Shape()
      && (Harmless(s) ==> CoherentAt(t.cache, t.View(), UserKey(user)))
      && (ToldOfUsers(s.log) && CoherentAt(t.cache, t.View(), UserKey(user)) ==> Harmless(s))
      && (CoherentAt(t.cache, t.View(), UserKey(user)) && !Harmless(s) ==>
            HeardAll(Says(UserV(user)), since, UserKey(user)).Withdrawn?)
      && ((forall u :: 0 <= u < |since| ==> !Mentions(since[u], UserKey(user))) ==> StillSaid(user, since))
  {
    var s := states[i];
    RunKeepsInv(states, steps, i);
    StoreOutcome(s, steps[i].now);
    if forall u :: 0 <= u < |s.auth.since| ==> !Mentions(s.auth.since[u], UserKey(s.auth.user)) {
      UnmentionedIsStillSaid(s.auth.user, s.auth.since);
    }
  }

  const BEFORE := User(1, None, 0)
  const AFTER := User(1, None, 1)

  /** The code does not always meet the condition: the answer and then an update of the same user arrive,
      both are handled, and the store puts the older user over the newer one. */
  lemma AuthorizationCanGoStale() returns (states: seq<Sys>, steps: seq<Step>)
    ensures IsRun(states, steps) && |steps| == 6 && steps[5].Store?
    ensures states[5].Shape() && CoherentAt(states[5].cache, states[5].View(), UserKey(BEFORE))
    ensures states[6].Shape() && !CoherentAt(states[6].cache, states[6].View(), UserKey(BEFORE))
  {
    states, steps := StaleRun();
    RunKeepsInv(states, steps, 5);
    StaleStore(states[5], states[6]);
  }

  /** The update was handled after the answer, and the store is next. */
  predicate Overtaken(s: Sys) {
    && s.Shape() && s.connected && s.auth == Told(BEFORE, [RENEWAL]) && s.risk.None?
    && s.cache.Enabled(USER) && s.View() == New()
  }

  lemma StaleStore(s: Sys, t: Sys)
    requires Overtaken(s) && Inv(s) && t == Next(s, Store(0))
    ensures CoherentAt(s.cache, s.View(), UserKey(BEFORE))
    ensures t.Shape() && !CoherentAt(t.cache, t.View(), UserKey(BEFORE))
  {
    StoringUser(s.cache, BEFORE, s.View(), 0, UserKey(BEFORE));
  }

  const RENEWAL := UserUpdated(1, Some(AFTER))

  function Old(): Snapshot { map[UserKey(BEFORE) := UserV(BEFORE)] }

  function New(): Snapshot { map[UserKey(BEFORE) := UserV(AFTER)] }

  /** The first states of the run: answered, overtaken, and with the answer and then the update handled. */
  function StaleState(n: nat): Sys {
    var start := Init(Old(), [1, 0, 0, 0, 0, 0], 1);
    var log := [Record(None, Old())];
    var longer := [Record(None, Old()), Record(Some(RENEWAL), New())];
    match n
    case 0 => start
    case 1 => start.(connected := true)
    case 2 => start.(connected := true, stream := [AuthorizationFrame(BEFORE)], auth := Asked)
    case 3 =>
      start.(connected := true, log := longer, auth := Asked,
             stream := [AuthorizationFrame(BEFORE), UpdateFrame(RENEWAL)])
    case 4 => start.(connected := true, log := longer, stream := [UpdateFrame(RENEWAL)], auth := Told(BEFORE, []))
    case _ =>
      start.(connected := true, log := longer, applied := 1, auth := Told(BEFORE, [RENEWAL]),
             cache := Act(start.cache, Change(ApplyUpdate(RENEWAL)), 0))
  }

  function StaleStep(n: nat): Step {
    match n
    case 0 => Connect
    case 1 => Admit(BEFORE)
    case 2 => Push(RENEWAL, New())
    case _ => Handle(0)
  }

  lemma StaleServer(n: nat)
    requires n < 3
    ensures Enabled(StaleState(n), StaleStep(n)) && Next(StaleState(n), StaleStep(n)) == StaleState(n + 1)
  {
    OneUpdate(RENEWAL, Old(), New());
  }

  lemma StaleClient(n: nat)
    requires n == 3 || n == 4
    ensures Enabled(StaleState(n), StaleStep(n)) && Next(StaleState(n), StaleStep(n)) == StaleState(n + 1)
  {
    var s := StaleState(n);
    assert n == 3 ==> s.stream[1..] == [UpdateFrame(RENEWAL)];
    assert n == 4 ==> s.stream[1..] == [] && [] + [RENEWAL] == [RENEWAL];
  }

  lemma StaleRun() returns (states: seq<Sys>, steps: seq<Step>)
    ensures IsRun(states, steps) && |steps| == 6 && steps[5] == Store(0) && Overtaken(states[5])
    ensures states[6] == Next(states[5], Store(0))
  {
    var last := StaleState(5);
    assert Overtaken(last);
    states := seq(6, i requires 0 <= i < 6 => StaleState(i)) + [Next(last, Store(0))];
    steps := seq(5, i requires 0 <= i < 5 => StaleStep(i)) + [Store(0)];
    forall i {:trigger steps[i]} | 0 <= i < 6
      ensures Enabled(states[i], steps[i]) && states[i + 1] == Next(states[i], steps[i])
    {
      assert states[i] == StaleState(i);
      if i < 5 { assert steps[i] == StaleStep(i) && states[i + 1] == StaleState(i + 1); }
      if i < 3 { StaleServer(i); } else if i < 5 { StaleClient(i); }
    }
    assert Initial(StaleState(0));
  }

  lemma OneUpdate(update: Update, pre: Snapshot, post: Snapshot)
    requires update == UserUpdated(1, Some(AFTER))
    requires pre == map[UserKey(BEFORE) := UserV(BEFORE)] && post == map[UserKey(BEFORE) := UserV(AFTER)]
    ensures Announces(update, pre, post)
  {
    assert CarriedByUpdate(update) == [UserV(AFTER)];
    forall k ensures LastFor(CarriedByUpdate(update), k) == if k == UserKey(BEFORE) then Some(UserV(AFTER)) else None {
      assert LastFor([UserV(AFTER)][..0], k) == None;
    }
  }
}
