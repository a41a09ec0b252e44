/** Read coherence. A server keeps a log of its states; over each connection it pushes every change as an
    update and answers calls, in one ordered stream. The client handles frames in order, captures the
    cache revision before it sends a read and accepts the result against that revision. The user that
    authorization returns is stored as if it were an update, in a step of its own. */
module Coherence {
  import opened Wrappers
  import opened EntityKeys
  import opened Recency
  import opened CacheModel
  import opened CacheTheorems
  import opened Projection
  import opened ProjectionTheorems
  import opened ProjectionGuarantees

  type Snapshot = map<Key, Value>

  /** post is pre changed as the update says: carried entities are as carried, entities it neither
      carries nor declares gone are as before, but for a status it sets. Of a key it declares gone it
      says nothing, so the server may keep what the client must forget. */
  ghost predicate Announces(update: Update, pre: Snapshot, post: Snapshot) {
    forall k ::
      var carried, status := LastFor(CarriedByUpdate(update), k), LastStatus(StatusesOf(update), k);
      if carried.Some? then k in post && post[k] == carried.value
      else !GoneBy(update, k) && k in pre ==>
        k in post && post[k] == if status.Some? then Restated(pre[k], status.value) else pre[k]
  }

  /** Every entity in the result is as in the snapshot. */
  ghost predicate Truthful(request: Request, result: Result, at: Snapshot) {
    forall k :: var carried := LastFor(CarriedByResult(request, result), k);
      carried.Some? ==> k in at && at[k] == carried.value
  }

  predicate Holds(at: Snapshot, k: Key, v: Value) { k in at && at[k] == v }

  /** What is completely cached under k is the server's. */
  ghost predicate CoherentAt(cache: CacheModel.State<Value>, at: Snapshot, k: Key)
    requires cache.Shape()
  {
    var e := cache.Lookup(k);
    e.Some? && !e.value.partial ==> Holds(at, k, e.value.value)
  }

  /** The update settles what k holds, whatever it held. */
  ghost predicate Resolves(update: Update, k: Key) {
    LastFor(CarriedByUpdate(update), k).Some? || GoneBy(update, k)
  }

  function Ideal(at: Snapshot, k: Key, now: nat): Option<Entry<Value>> {
    if k in at then Some(Entry(k, at[k], false, now + 1)) else None
  }

  /** The cache stays backed by what is ideally known of a key, through an update or a read. */
  lemma UpdateBacks(cache: CacheModel.State<Value>, update: Update, now: nat, k: Key, known: Option<Entry<Value>>)
    requires cache.Valid() && Backs(known, cache.Lookup(k), now)
    ensures Exec(cache, ApplyUpdate(update), now).Valid()
    ensures Backs(AppliedFate(update, k, known, true, now + 1, now),
                  Exec(cache, ApplyUpdate(update), now).Lookup(k), now)
  {
    ExecValid(cache, ApplyUpdate(update), now);
    ExecBacked(cache, ApplyUpdate(update), now, k, known);
    ApplyUpdateFate(update, k, known, true, now + 1, now);
  }

  lemma ReadBacks(cache: CacheModel.State<Value>, request: Request, result: Result, now: nat, k: Key,
                  known: Option<Entry<Value>>)
    requires cache.Valid() && Backs(known, cache.Lookup(k), now)
    ensures Exec(cache, ObserveResult(request, result), now).Valid()
    ensures Backs(ObservedFate(request, result, k, known, true, now + 1),
                  Exec(cache, ObserveResult(request, result), now).Lookup(k), now)
  {
    ExecValid(cache, ObserveResult(request, result), now);
    ExecBacked(cache, ObserveResult(request, result), now, k, known);
    ObserveResultFate(request, result, k, known, true, now + 1, now);
  }

  /** What is known of k: the server's entity if the cache agrees with it, else just what is cached. */
  ghost function Knowledge(cache: CacheModel.State<Value>, at: Snapshot, k: Key, now: nat): (r: Option<Entry<Value>>)
    requires cache.Valid()
    ensures Backs(r, cache.Lookup(k), now)
  {
    var was := cache.Lookup(k);
    if CoherentAt(cache, at, k) then Ideal(at, k, now) else Some(Entry(k, was.value.value, false, now + 1))
  }

  /** An update moves a key's entry with the server, and mends it if the update settles the key. */
  lemma UpdateKeepsCoherence(cache: CacheModel.State<Value>, update: Update, pre: Snapshot, post: Snapshot,
                             now: nat, k: Key)
    requires cache.Valid() && Announces(update, pre, post)
    requires CoherentAt(cache, pre, k) || Resolves(update, k)
    ensures Exec(cache, ApplyUpdate(update), now).Valid()
    ensures CoherentAt(Exec(cache, ApplyUpdate(update), now), post, k)
  {
    var r := Exec(cache, ApplyUpdate(update), now);
    UpdateBacks(cache, update, now, k, Knowledge(cache, pre, k, now));
    if r.Lookup(k).Some? { assert r.ListOk(k.kind); }
  }

  /** A truthful result leaves a key's entry coherent, and mends it if it carries the key. */
  lemma ReadKeepsCoherence(cache: CacheModel.State<Value>, request: Request, result: Result, at: Snapshot,
                           now: nat, k: Key)
    requires cache.Valid() && Truthful(request, result, at)
    requires CoherentAt(cache, at, k) || LastFor(CarriedByResult(request, result), k).Some?
    ensures Exec(cache, ObserveResult(request, result), now).Valid()
    ensures CoherentAt(Exec(cache, ObserveResult(request, result), now), at, k)
  {
    var r := Exec(cache, ObserveResult(request, result), now);
    ReadBacks(cache, request, result, now, k, Knowledge(cache, at, k, now));
    if r.Lookup(k).Some? { assert r.ListOk(k.kind); }
  }

  // ---------- What updates say of one user ----------

  function UserKey(user: User): Key { EntityKey(USER, 0, user.id) }

  datatype Word = Says(value: Value) | Withdrawn

  /** What has been said of k once the update is handled too. */
  ghost function Heard(word: Word, update: Update, k: Key): Word {
    var carried, status := LastFor(CarriedByUpdate(update), k), LastStatus(StatusesOf(update), k);
    if carried.Some? then Says(carried.value)
    else if GoneBy(update, k) then Withdrawn
    else if word.Says? && status.Some? then Says(Restated(word.value, status.value))
    else word
  }

  ghost function HeardAll(word: Word, updates: seq<Update>, k: Key): Word {
    if updates == [] then word else Heard(HeardAll(word, updates[..|updates| - 1], k), updates[|updates| - 1], k)
  }

  /** The updates leave the user what it was. */
  ghost predicate StillSaid(user: User, updates: seq<Update>) {
    HeardAll(Says(UserV(user)), updates, UserKey(user)) == Says(UserV(user))
  }

  /** An update that speaks of the user: it carries it, withdraws it or gives it a status. */
  ghost predicate Mentions(update: Update, k: Key) {
    Resolves(update, k) || LastStatus(StatusesOf(update), k).Some?
  }

  lemma {:induction false} UnmentionedIsStillSaid(user: User, updates: seq<Update>)
    requires forall i :: 0 <= i < |updates| ==> !Mentions(updates[i], UserKey(user))
    ensures StillSaid(user, updates)
  {
    if updates != [] { UnmentionedIsStillSaid(user, updates[..|updates| - 1]); }
  }

  /** No user appears without being carried, and a withdrawn one is gone. */
  ghost predicate TellsOfUsers(update: Update, pre: Snapshot, post: Snapshot) {
    forall id: nat :: EntityKey(USER, 0, id) in post ==>
      var k := EntityKey(USER, 0, id); LastFor(CarriedByUpdate(update), k).Some? || (k in pre && !GoneBy(update, k))
  }

  // ---------- The system ----------

  /** One state of the server, and the update that announced it, if any did. */
  datatype Record = Record(update: Option<Update>, state: Snapshot)

  datatype Frame = UpdateFrame(update: Update) | ResultFrame(call: nat, result: Result) | AuthorizationFrame(user: User)

  datatype Phase = Captured | Sent | Answered(result: Result) | Done

  datatype Call = Call(request: Request, captured: nat, phase: Phase)

  /** The authorization of the current connection; since are the updates handled after its answer. */
  datatype Authorization =
    | Unasked
    | Asked
    | Told(user: User, since: seq<Update>)
    | Stored(user: User, since: seq<Update>)

  /** log[applied] is the state up to which the client has handled updates. risk is the one key whose
      entry an outdated user may have taken. */
  datatype State = State(log: seq<Record>, applied: nat, connected: bool, stream: seq<Frame>,
                         cache: CacheModel.State<Value>, calls: seq<Call>, auth: Authorization, risk: Option<Key>)
  {
    predicate Shape() { applied < |log| && cache.Shape() }

    function Server(): Snapshot
      requires Shape()
    {
      log[|log| - 1].state
    }

    function View(): Snapshot
      requires Shape()
    {
      log[applied].state
    }
  }

  datatype Step =
    | Begin(request: Request)
    | Send(read: nat)
    | Push(update: Update, post: Snapshot)
    | Reply(read: nat, result: Result)
    | Admit(user: User)        // the server authorizes and returns the user as it is
    | Handle(now: nat)
    | Settle(read: nat, now: nat)
    | Store(now: nat)          // the authorized user, stored as an update
    | Abandon(read: nat)
    | Disconnect(now: nat)
    | Drift(post: Snapshot)    // changes the client cannot see while disconnected
    | Connect
    | Forget(matches: Key -> bool, now: nat)
    | Look(look: Action<Value>, now: nat)

  ghost predicate Enabled(s: State, step: Step) {
    s.Shape() &&
    match step
    case Begin(request) => request.IsStateRead()
    case Send(c) => s.connected && c < |s.calls| && s.calls[c].phase.Captured?
    case Push(update, post) => s.connected && Announces(update, s.Server(), post)
    case Reply(c, result) =>
      s.connected && c < |s.calls| && s.calls[c].phase.Sent? && Truthful(s.calls[c].request, result, s.Server())
    case Admit(user) => s.connected && s.auth.Unasked? && Holds(s.Server(), UserKey(user), UserV(user))
    case Handle(_) => s.stream != [] && (s.stream[0].UpdateFrame? ==> s.applied + 1 < |s.log|)
    case Settle(c, _) => c < |s.calls| && s.calls[c].phase.Answered?
    case Store(_) => s.connected && s.auth.Told?
    case Abandon(c) => c < |s.calls|
    case Disconnect(_) => s.connected
    case Drift(_) => !s.connected
    case Connect => !s.connected
    case Forget(_, _) => true
    case Look(look, _) => look.Get? || look.List?
  }

  function ForgetAll(): Action<Value> { Change([DeleteWhere((k: Key) => true)]) }

  function Authorized(user: User): Update { UserUpdated(user.id, Some(user)) }

  function SetPhase(s: State, c: nat, phase: Phase): State
    requires c < |s.calls|
  {
    s.(calls := s.calls[c := s.calls[c].(phase := phase)])
  }

  ghost function HandleFrame(s: State, frame: Frame, now: nat): State
    requires s.Shape()
  {
    match frame
    case UpdateFrame(update) =>
      s.(applied := s.applied + 1, cache := Act(s.cache, Change(ApplyUpdate(update)), now),
         auth := if s.auth.Told? then Told(s.auth.user, s.auth.since + [update]) else s.auth,
         risk := if s.risk.Some? && Resolves(update, s.risk.value) then None else s.risk)
    case ResultFrame(c, result) =>
      if c < |s.calls| && s.calls[c].phase.Sent? then SetPhase(s, c, Answered(result)) else s
    case AuthorizationFrame(user) => if s.auth.Asked? then s.(auth := Told(user, [])) else s
  }

  ghost function Next(s: State, step: Step): State
    requires Enabled(s, step)
  {
    match step
    case Begin(request) => s.(calls := s.calls + [Call(request, s.cache.revision, Captured)])
    case Send(c) => SetPhase(s, c, Sent)
    case Push(update, post) =>
      s.(log := s.log + [Record(Some(update), post)], stream := s.stream + [UpdateFrame(update)])
    case Reply(c, result) => s.(stream := s.stream + [ResultFrame(c, result)])
    case Admit(user) => s.(stream := s.stream + [AuthorizationFrame(user)], auth := Asked)
    case Handle(now) => HandleFrame(s.(stream := s.stream[1..]), s.stream[0], now)
    case Settle(c, now) =>
      var call := s.calls[c];
      var observation: Action<Value> := Accept(call.captured, ObserveResult(call.request, call.phase.result));
      SetPhase(s.(cache := Act(s.cache, observation, now)), c, Done)
    case Store(now) =>
      var user, since := s.auth.user, s.auth.since;
      s.(cache := Act(s.cache, Change(ApplyUpdate(Authorized(user))), now), auth := Stored(user, since),
         risk := if StillSaid(user, since) then None else Some(UserKey(user)))
    case Abandon(c) => SetPhase(s, c, Done)
    case Disconnect(now) =>
      s.(connected := false, stream := [], cache := Act(s.cache, ForgetAll(), now), calls := HangUp(s.calls),
         auth := Unasked, risk := None)
    case Drift(post) => s.(log := s.log + [Record(None, post)])
    case Connect => s.(connected := true, applied := |s.log| - 1)
    case Forget(matches, now) => s.(cache := Act(s.cache, Change([DeleteWhere(matches)]), now))
    case Look(look, now) => s.(cache := Act(s.cache, look, now))
  }

  /** Reads pending at the broker fail with the connection; one already answered is still in flight. */
  function HangUp(calls: seq<Call>): (r: seq<Call>)
    ensures |r| == |calls|
    ensures forall c :: 0 <= c < |calls| ==> r[c] == if calls[c].phase.Sent? then calls[c].(phase := Done) else calls[c]
  {
    seq(|calls|, c requires 0 <= c < |calls| => if calls[c].phase.Sent? then calls[c].(phase := Done) else calls[c])
  }

  // ---------- Invariant ----------

  /** The frames' updates are exactly those of the log after the applied position, in order; each
      announces its step of the log, and each answer is truthful where it stands. */
  ghost predicate Leads(log: seq<Record>, applied: nat, stream: seq<Frame>, calls: seq<Call>)
    requires applied < |log|
    decreases |stream|
  {
    if stream == [] then applied == |log| - 1
    else
      match stream[0]
      case UpdateFrame(update) =>
        && applied + 1 < |log| && log[applied + 1].update == Some(update)
        && Announces(update, log[applied].state, log[applied + 1].state)
        && Leads(log, applied + 1, stream[1..], calls)
      case ResultFrame(c, result) =>
        && c < |calls| && Truthful(calls[c].request, result, log[applied].state)
        && Leads(log, applied, stream[1..], calls)
      case AuthorizationFrame(user) =>
        Holds(log[applied].state, UserKey(user), UserV(user)) && Leads(log, applied, stream[1..], calls)
  }

  ghost predicate CallOk(s: State, c: nat)
    requires s.Shape() && c < |s.calls|
  {
    && s.calls[c].captured <= s.cache.revision
    && (s.calls[c].phase.Answered? && s.calls[c].captured == s.cache.revision ==>
          s.connected && Truthful(s.calls[c].request, s.calls[c].phase.result, s.View()))
  }

  /** Every update of the log tells of all users that came or went. */
  ghost predicate ToldOfUsers(log: seq<Record>) {
    forall p {:trigger log[p].update} :: 0 < p < |log| && log[p].update.Some? ==>
      TellsOfUsers(log[p].update.value, log[p - 1].state, log[p].state)
  }

  /** What was said of the authorized user since its answer is what the server held when it said it. */
  ghost predicate AuthOk(s: State)
    requires s.Shape()
  {
    s.auth.Told? ==>
      var k, word := UserKey(s.auth.user), HeardAll(Says(UserV(s.auth.user)), s.auth.since, UserKey(s.auth.user));
      && (word.Says? ==> Holds(s.View(), k, word.value))
      && (word.Withdrawn? && ToldOfUsers(s.log) ==> k !in s.View())
  }

  /** The one key at risk is the stored user's, and only if the updates handled before the store
      changed that user. */
  ghost predicate RiskOk(s: State) {
    s.risk.Some? ==> s.auth.Stored? && s.risk.value == UserKey(s.auth.user) && !StillSaid(s.auth.user, s.auth.since)
  }

  ghost predicate Inv(s: State) {
    && s.Shape() && s.cache.Valid()
    && (forall k :: s.risk != Some(k) ==> CoherentAt(s.cache, s.View(), k))
    && (forall c :: 0 <= c < |s.calls| ==> CallOk(s, c))
    && (s.connected ==> Leads(s.log, s.applied, s.stream, s.calls))
    && (!s.connected ==> s.stream == [] && s.auth.Unasked? && forall k :: s.cache.Lookup(k).None?)
    && AuthOk(s) && RiskOk(s)
  }

  lemma {:induction false} LeadsOn(log: seq<Record>, applied: nat, stream: seq<Frame>, calls: seq<Call>, frame: Frame,
                                   more: seq<Record>)
    requires applied < |log| && Leads(log, applied, stream, calls)
    requires match frame
      case UpdateFrame(update) =>
        && |more| == 1 && more[0].update == Some(update)
        && Announces(update, log[|log| - 1].state, more[0].state)
      case ResultFrame(c, result) =>
        more == [] && c < |calls| && Truthful(calls[c].request, result, log[|log| - 1].state)
      case AuthorizationFrame(user) => more == [] && Holds(log[|log| - 1].state, UserKey(user), UserV(user))
    ensures Leads(log + more, applied, stream + [frame], calls)
    decreases |stream|
  {
    var longer := stream + [frame];
    if stream == [] {
      assert longer[1..] == [];
    } else {
      assert longer[0] == stream[0] && longer[1..] == stream[1..] + [frame];
      LeadsOn(log, if stream[0].UpdateFrame? then applied + 1 else applied, stream[1..], calls, frame, more);
    }
  }

  lemma {:induction false} LeadsWithCalls(log: seq<Record>, applied: nat, stream: seq<Frame>, calls: seq<Call>,
                                          more: seq<Call>)
    requires applied < |log| && Leads(log, applied, stream, calls)
    requires |calls| <= |more| && forall c :: 0 <= c < |calls| ==> more[c].request == calls[c].request
    ensures Leads(log, applied, stream, more)
    decreases |stream|
  {
    if stream != [] {
      LeadsWithCalls(log, if stream[0].UpdateFrame? then applied + 1 else applied, stream[1..], calls, more);
      if stream[0].ResultFrame? { assert more[stream[0].call].request == calls[stream[0].call].request; }
    }
  }
}
