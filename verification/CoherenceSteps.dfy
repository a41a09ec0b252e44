/** Every step of the client against the server keeps the invariant of coherence. */
module CoherenceSteps {
  import opened Wrappers
  import opened EntityKeys
  import opened Recency
  import opened CacheModel
  import opened CacheTheorems
  import opened Projection
  import opened ProjectionTheorems
  import opened ProjectionGuarantees
  import opened Coherence

  type Sys = Coherence.State

  lemma CallStep(s: Sys, step: Step)
    requires Inv(s) && Enabled(s, step) && (step.Begin? || step.Send? || step.Abandon?)
    ensures Inv(Next(s, step))
  {
    var t := Next(s, step);
    forall c | 0 <= c < |t.calls| ensures CallOk(t, c) { if c < |s.calls| { assert CallOk(s, c); } }
    if s.connected { LeadsWithCalls(s.log, s.applied, s.stream, s.calls, t.calls); }
  }

  lemma PrefixToldOfUsers(log: seq<Record>, more: seq<Record>)
    ensures ToldOfUsers(log + more) ==> ToldOfUsers(log)
  {
    var longer := log + more;
    if ToldOfUsers(longer) {
      forall p | 0 < p < |log| && log[p].update.Some?
        ensures TellsOfUsers(log[p].update.value, log[p - 1].state, log[p].state)
      {
        assert longer[p].update == log[p].update && longer[p - 1] == log[p - 1];
      }
    }
  }

  /** Nothing changes but what the server has done. */
  lemma SameView(s: Sys, t: Sys)
    requires Inv(s) && t.Shape() && t.View() == s.View() && t.cache == s.cache && t.calls == s.calls
    requires t.connected == s.connected && t.risk == s.risk
    ensures forall c :: 0 <= c < |t.calls| ==> CallOk(t, c)
    ensures forall k :: t.risk != Some(k) ==> CoherentAt(t.cache, t.View(), k)
  {
    forall c | 0 <= c < |t.calls| ensures CallOk(t, c) { assert CallOk(s, c); }
    forall k ensures t.risk != Some(k) ==> CoherentAt(t.cache, t.View(), k) {
      if s.risk != Some(k) { assert CoherentAt(s.cache, s.View(), k); }
    }
  }

  lemma ServerStep(s: Sys, step: Step)
    requires Inv(s) && Enabled(s, step) && (step.Push? || step.Reply? || step.Admit? || step.Drift?)
    ensures Inv(Next(s, step))
  {
    var t := Next(s, step);
    SameView(s, t);
    match step
    case Push(update, post) =>
      LeadsOn(s.log, s.applied, s.stream, s.calls, UpdateFrame(update), [Record(Some(update), post)]);
      PrefixToldOfUsers(s.log, [Record(Some(update), post)]);
    case Reply(c, result) =>
      LeadsOn(s.log, s.applied, s.stream, s.calls, ResultFrame(c, result), []);
      assert s.log + [] == s.log;
    case Admit(user) =>
      LeadsOn(s.log, s.applied, s.stream, s.calls, AuthorizationFrame(user), []);
      assert s.log + [] == s.log;
    case Drift(post) => PrefixToldOfUsers(s.log, [Record(None, post)]);
  }

  lemma ConnectStep(s: Sys, step: Step)
    requires Inv(s) && Enabled(s, step) && step.Connect?
    ensures Inv(Next(s, step))
  {
    var t := Next(s, step);
    forall c | 0 <= c < |t.calls| ensures CallOk(t, c) { assert CallOk(s, c); }
  }

  /** A cache change that bumps the revision keeps the calls' part of the invariant. */
  lemma BumpedCalls(s: Sys, t: Sys)
    requires Inv(s) && t.Shape() && t.calls == s.calls && t.cache.revision > s.cache.revision
    ensures forall c :: 0 <= c < |t.calls| ==> CallOk(t, c)
  {
    forall c | 0 <= c < |t.calls| ensures CallOk(t, c) { assert CallOk(s, c); }
  }

  lemma UpdateMovesCache(s: Sys, t: Sys, update: Update, now: nat, k: Key)
    requires Inv(s) && t.Shape() && t.cache == Act(s.cache, Change(ApplyUpdate(update)), now)
    requires Announces(update, s.View(), t.View()) && (s.risk == Some(k) ==> Resolves(update, k))
    ensures t.cache.Valid() && CoherentAt(t.cache, t.View(), k)
  {
    var bumped := s.cache.(revision := s.cache.revision + 1);
    RevisionIsFree(s.cache, s.cache.revision + 1);
    if s.risk != Some(k) { assert CoherentAt(s.cache, s.View(), k); }
    UpdateKeepsCoherence(bumped, update, s.View(), t.View(), now, k);
  }

  lemma UpdateHandled(s: Sys, update: Update, now: nat)
    requires Inv(s) && s.stream != [] && s.stream[0] == UpdateFrame(update)
    ensures Inv(HandleFrame(s.(stream := s.stream[1..]), UpdateFrame(update), now))
  {
    var t := HandleFrame(s.(stream := s.stream[1..]), UpdateFrame(update), now);
    ActValid(s.cache, Change(ApplyUpdate(update)), now);
    BumpedCalls(s, t);
    forall k | t.risk != Some(k) ensures CoherentAt(t.cache, t.View(), k) { UpdateMovesCache(s, t, update, now, k); }
    if s.auth.Told? { HeardOn(s, t, update); }
  }

  lemma HeardOn(s: Sys, t: Sys, update: Update)
    requires s.Shape() && t.Shape() && AuthOk(s) && s.auth.Told? && t.log == s.log && t.applied == s.applied + 1
    requires s.log[t.applied].update == Some(update) && Announces(update, s.View(), t.View())
    requires t.auth == Told(s.auth.user, s.auth.since + [update])
    ensures AuthOk(t)
  {
    var k := UserKey(s.auth.user);
    assert t.auth.since[..|t.auth.since| - 1] == s.auth.since;
    if ToldOfUsers(s.log) {
      assert TellsOfUsers(s.log[t.applied].update.value, s.log[t.applied - 1].state, s.log[t.applied].state);
      assert k == EntityKey(USER, 0, s.auth.user.id);
    }
  }

  lemma HandleStep(s: Sys, step: Step)
    requires Inv(s) && Enabled(s, step) && step.Handle?
    ensures Inv(Next(s, step))
  {
    var t := Next(s, step);
    match s.stream[0]
    case UpdateFrame(update) => UpdateHandled(s, update, step.now);
    case ResultFrame(c, result) =>
      LeadsWithCalls(s.log, s.applied, s.stream[1..], s.calls, t.calls);
      forall d | 0 <= d < |t.calls| ensures CallOk(t, d) { assert CallOk(s, d); }
    case AuthorizationFrame(user) =>
      forall d | 0 <= d < |t.calls| ensures CallOk(t, d) { assert CallOk(s, d); }
  }

  lemma SettleStep(s: Sys, step: Step)
    requires Inv(s) && Enabled(s, step) && step.Settle?
    ensures Inv(Next(s, step))
  {
    var t, c := Next(s, step), step.read;
    var read := s.calls[c];
    assert CallOk(s, c);
    ActValid(s.cache, Accept(read.captured, ObserveResult(read.request, read.phase.result)), step.now);
    forall k | t.risk != Some(k) ensures CoherentAt(t.cache, t.View(), k) {
      assert CoherentAt(s.cache, s.View(), k);
      if read.captured == s.cache.revision {
        ReadKeepsCoherence(s.cache, read.request, read.phase.result, s.View(), step.now, k);
      }
    }
    forall d | 0 <= d < |t.calls| ensures CallOk(t, d) { assert CallOk(s, d); }
    if s.connected { LeadsWithCalls(s.log, s.applied, s.stream, s.calls, t.calls); }
  }

  /** Storing the authorized user: every other key is as coherent as before, and the user's own exactly
      if the user cannot be cached or is what the server holds. */
  lemma StoringUser(cache: CacheModel.State<Value>, user: User, at: Snapshot, now: nat, k: Key)
    requires cache.Valid()
    ensures var r := Act(cache, Change(ApplyUpdate(Authorized(user))), now);
      && r.Valid()
      && (k != UserKey(user) && CoherentAt(cache, at, k) ==> CoherentAt(r, at, k))
      && (k == UserKey(user) ==>
            (CoherentAt(r, at, k) <==> user.id == 0 || !cache.Enabled(USER) || Holds(at, k, UserV(user))))
  {
    var bumped := cache.(revision := cache.revision + 1);
    var put: Op<Value> := Put(UserKey(user), UserV(user), false);
    RevisionIsFree(cache, cache.revision + 1);
    assert ApplyUpdate(Authorized(user)) == [put];
    assert Exec(bumped, [put], now) == Apply(bumped, put, now);
    ApplyLookup(bumped, put, now, k);
    if k == UserKey(user) && cache.Lookup(k).Some? { assert cache.ListOk(k.kind); }
  }

  lemma StoreStep(s: Sys, step: Step)
    requires Inv(s) && Enabled(s, step) && step.Store?
    ensures Inv(Next(s, step))
  {
    var t, user := Next(s, step), s.auth.user;
    StoringUser(s.cache, user, s.View(), step.now, UserKey(user));
    BumpedCalls(s, t);
    forall k | t.risk != Some(k) ensures CoherentAt(t.cache, t.View(), k) {
      assert CoherentAt(s.cache, s.View(), k);
      StoringUser(s.cache, user, s.View(), step.now, k);
    }
  }

  lemma Forgetting(cache: CacheModel.State<Value>, matches: Key -> bool, now: nat)
    requires cache.Valid()
    ensures var r := Act(cache, Change([DeleteWhere(matches)]), now);
      r.Valid() && forall k :: r.Lookup(k) == if matches(k) then None else cache.Lookup(k)
  {
    var bumped := cache.(revision := cache.revision + 1);
    var forget: Op<Value> := DeleteWhere(matches);
    RevisionIsFree(cache, cache.revision + 1);
    SiftAllKeeps(bumped, Matching(matches));
    assert Exec(bumped, [forget], now) == Apply(bumped, forget, now);
  }

  lemma ForgetStep(s: Sys, step: Step)
    requires Inv(s) && Enabled(s, step) && (step.Forget? || step.Disconnect?)
    ensures Inv(Next(s, step))
  {
    var t := Next(s, step);
    Forgetting(s.cache, if step.Forget? then step.matches else (k: Key) => true, step.now);
    forall c | 0 <= c < |t.calls| ensures CallOk(t, c) { assert CallOk(s, c); }
    forall k | t.risk != Some(k) ensures CoherentAt(t.cache, t.View(), k) {
      if s.risk != Some(k) { assert CoherentAt(s.cache, s.View(), k); }
    }
  }

  lemma LookFinds(cache: CacheModel.State<Value>, look: Action<Value>, now: nat, k: Key)
    requires cache.Valid() && (look.Get? || look.List?)
    ensures Act(cache, look, now).Lookup(k).Some? ==> Act(cache, look, now).Lookup(k) == cache.Lookup(k)
  {
    match look
    case Get(j) =>
      DropKeeps(cache, j);
      if cache.Lookup(j).Some? {
        assert cache.ListOk(j.kind);
        TouchKeeps(cache.lists[j.kind], j);
      }
    case List(matches) => SiftAllKeeps(cache, Stale(matches, now));
  }

  lemma LookStep(s: Sys, step: Step)
    requires Inv(s) && Enabled(s, step) && step.Look?
    ensures Inv(Next(s, step))
  {
    var t := Next(s, step);
    ActValid(s.cache, step.look, step.now);
    forall k ensures t.cache.Lookup(k).Some? ==> t.cache.Lookup(k) == s.cache.Lookup(k) {
      LookFinds(s.cache, step.look, step.now, k);
    }
    forall k | t.risk != Some(k) ensures CoherentAt(t.cache, t.View(), k) { assert CoherentAt(s.cache, s.View(), k); }
    forall c | 0 <= c < |t.calls| ensures CallOk(t, c) { assert CallOk(s, c); }
  }

  lemma NextKeepsInv(s: Sys, step: Step)
    requires Inv(s) && Enabled(s, step)
    ensures Inv(Next(s, step))
  {
    match step
    case Begin(_) => CallStep(s, step);
    case Send(_) => CallStep(s, step);
    case Abandon(_) => CallStep(s, step);
    case Handle(_) => HandleStep(s, step);
    case Settle(_, _) => SettleStep(s, step);
    case Store(_) => StoreStep(s, step);
    case Disconnect(_) => ForgetStep(s, step);
    case Forget(_, _) => ForgetStep(s, step);
    case Look(_, _) => LookStep(s, step);
    case Connect => ConnectStep(s, step);
    case _ => ServerStep(s, step);
  }
}
