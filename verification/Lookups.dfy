/** What a caller finds in the cache after a call or an update: entities through the managers of their own
    kind, community and chat, the status last given to a user, and nothing of a read that lost a race. */
module Lookups {
  import opened Wrappers
  import opened EntityKeys
  import opened Recency
  import opened CacheModel
  import opened CacheTheorems
  import opened Projection
  import opened ProjectionTheorems
  import opened ProjectionGuarantees

  // ---------- Entities and their managers ----------

  /** The manager through which a caller who knows the entity's community or chat asks for it. */
  function ManagerOf(v: Value): Manager {
    match v
    case UserV(_) => Manager(USER, 0, NO_CHAT)
    case CommunityV(_) => Manager(COMMUNITY, 0, NO_CHAT)
    case ChannelV(c) => Manager(CHANNEL, c.communityId, NO_CHAT)
    case MemberV(m) => Manager(MEMBER, m.communityId, NO_CHAT)
    case RoleV(r) => Manager(ROLE, r.communityId, NO_CHAT)
    case MessageV(m) => Manager(MESSAGE, 0, ChatRefFromProto(m.chatRef))
  }

  function IdOf(v: Value): nat {
    match v
    case UserV(u) => u.id
    case CommunityV(c) => c.id
    case ChannelV(c) => c.id
    case MemberV(m) => m.id
    case RoleV(r) => r.id
    case MessageV(m) => m.id
  }

  lemma ManagersName(v: Value, k: Key)
    requires IdOf(v) != 0
    ensures Owns(k, v) <==> k == ManagerOf(v).KeyOf(IdOf(v))
    ensures Placeable(v) <==> ManagerOf(v).Names(IdOf(v))
    ensures ManagerOf(v).Names(IdOf(v)) ==> ManagerOf(v).Matches(ManagerOf(v).KeyOf(IdOf(v)))
    ensures ManagerOf(v).KeyOf(IdOf(v)).id != 0 && ManagerOf(v).KeyOf(IdOf(v)).kind == ManagerOf(v).kind
  {
  }

  /** The projections and the managers agree: an entity is stored exactly if its manager can name it, and
      under the key by which the manager asks. */
  lemma StoredWhereManaged(v: Value, k: Key, was: Option<Entry<Value>>, enabled: bool, expires: nat, now: nat)
    requires IdOf(v) != 0
    ensures Owns(k, v) <==> k == ManagerOf(v).KeyOf(IdOf(v))
    ensures Placeable(v) <==> ManagerOf(v).Names(IdOf(v))
    ensures Fate(PutValue(v), k, was, enabled, expires, now) ==
      if enabled && ManagerOf(v).Names(IdOf(v)) && k == ManagerOf(v).KeyOf(IdOf(v))
      then Some(Entry(k, v, false, expires)) else was
  {
    KeysAreOwned(k, v);
    FateOfCarried([v], k, was, enabled, expires, now);
    assert [v][..0] == [] && Each(PutValue, [v]) == PutValue(v) + Each(PutValue, []);
  }

  /** vs[i] is the last entity of the message for its key. */
  ghost predicate LastOfItsKey(vs: seq<Value>, i: nat)
    requires i < |vs|
  {
    && Placeable(vs[i])
    && forall j, k :: i < j < |vs| && Owns(k, vs[i]) && Placeable(vs[j]) ==> !Owns(k, vs[j])
  }

  lemma {:induction false} LastForIsLast(vs: seq<Value>, k: Key, i: nat)
    requires i < |vs| && LastOfItsKey(vs, i) && Owns(k, vs[i])
    ensures LastFor(vs, k) == Some(vs[i])
    decreases |vs|
  {
    if i < |vs| - 1 {
      var front := vs[..|vs| - 1];
      assert LastOfItsKey(front, i) by {
        forall j, j' | i < j < |front| && Owns(j', front[i]) && Placeable(front[j]) ensures !Owns(j', front[j]) {
          assert front[j] == vs[j];
        }
      }
      LastForIsLast(front, k, i);
    }
  }

  /** With room, every entity of a read's result is found afterwards, completely, by the manager of its own
      kind and community or chat; unless the result itself withdraws its community. */
  lemma CarriedIsFound(s: State<Value>, request: Request, result: Result, now: nat, i: nat)
    requires s.Valid() && i < |CarriedByResult(request, result)| && LastOfItsKey(CarriedByResult(request, result), i)
    requires var v := CarriedByResult(request, result)[i];
      IdOf(v) != 0 && s.Enabled(ManagerOf(v).kind) && HasRoom(s, ObserveResult(request, result), ManagerOf(v).kind)
      && !Unavailable(result, ManagerOf(v).KeyOf(IdOf(v)))
    ensures var v := CarriedByResult(request, result)[i];
      var m, k := ManagerOf(v), ManagerOf(v).KeyOf(IdOf(v));
      && m.Names(IdOf(v)) && m.Matches(k)
      && Exec(s, ObserveResult(request, result), now).Lookup(k) == Some(Entry(k, v, false, now + s.ttl))
  {
    var v := CarriedByResult(request, result)[i];
    var k := ManagerOf(v).KeyOf(IdOf(v));
    ManagersName(v, k);
    LastForIsLast(CarriedByResult(request, result), k, i);
    ObservedWithRoom(s, request, result, now, k);
  }

  /** So a channel list's channels are found by the community's channel manager, and a later deletion of
      one of them removes it. */
  lemma ListedChannelsAreFound(s: State<Value>, community: nat, cs: seq<Channel>, now: nat, i: nat, later: nat)
    requires s.Valid() && s.ttl > 0 && s.Enabled(CHANNEL)
    requires HasRoom(s, ObserveResult(GetChannels(community), Channels(cs, [])), CHANNEL)
    requires i < |cs| && cs[i].id != 0 && cs[i].communityId == community != 0
    requires forall j :: i < j < |cs| ==> cs[j].id != cs[i].id
    ensures var t := Exec(s, ObserveResult(GetChannels(community), Channels(cs, [])), now);
      var k := Manager(CHANNEL, community, NO_CHAT).KeyOf(cs[i].id);
      && t.Lookup(k) == Some(Entry(k, ChannelV(cs[i]), false, now + s.ttl))
      && Exec(t, ApplyUpdate(ChannelDeleted(community, cs[i].id)), later).Lookup(k) == None
  {
    var request, result := GetChannels(community), Channels(cs, []);
    var vs := CarriedByResult(request, result);
    var t := Exec(s, ObserveResult(request, result), now);
    var k := Manager(CHANNEL, community, NO_CHAT).KeyOf(cs[i].id);
    assert vs == Map(AsChannel(), cs);
    CarriedIsFound(s, request, result, now, i);
    ExecValid(s, ObserveResult(request, result), now);
    AppliedOrLost(t, ChannelDeleted(community, cs[i].id), later, k);
  }

  /** With updates that store only complete entities, each key holds its fate afterwards or nothing. */
  lemma AppliedOrLost(s: State<Value>, update: Update, now: nat, k: Key)
    requires s.Valid() && s.ttl > 0 && forall op :: op in ApplyUpdate(update) && op.Put? ==> !op.partial
    ensures var r := Exec(s, ApplyUpdate(update), now).Lookup(k);
      r.None? || r == AppliedFate(update, k, s.Lookup(k), s.Enabled(k.kind), now + s.ttl, now)
  {
    ApplyUpdateFate(update, k, s.Lookup(k), s.Enabled(k.kind), now + s.ttl, now);
    LookupOrLost(s, ApplyUpdate(update), now, k,
                 AppliedFate(update, k, s.Lookup(k), s.Enabled(k.kind), now + s.ttl, now));
  }

  // ---------- Statuses ----------

  lemma {:induction false} StatusIsLast(statuses: seq<Status>, i: nat)
    requires i < |statuses| && forall j :: i < j < |statuses| ==> statuses[j].userId != statuses[i].userId
    ensures LastStatus(statuses, Key(USER, 0, 0, statuses[i].userId, 0)) == Some(statuses[i].status)
    decreases |statuses|
  {
    if i < |statuses| - 1 {
      var front := statuses[..|statuses| - 1];
      assert statuses[|statuses| - 1].userId != statuses[i].userId;
      StatusIsLast(front, i);
    }
  }

  lemma {:induction false} StatusStoresNothing(statuses: seq<Status>, kind: Kind)
    ensures PutsOf(Each(UpdateStatus, statuses), kind) == 0
  {
    if statuses != [] {
      StatusStoresNothing(statuses[1..], kind);
      assert Each(UpdateStatus, statuses)[1..] == Each(UpdateStatus, statuses[1..]);
    }
  }

  /** A status update sets the status last given to a user whose entry is live, and nothing else of it. */
  lemma StatusIsSet(s: State<Value>, update: Update, i: nat, now: nat, user: User, partial: bool, expires: nat)
    requires s.Valid() && s.ttl > 0 && (update.UserStatus? || update.UserStatusBatch?)
    requires i < |StatusesOf(update)| && now < expires
    requires forall j :: i < j < |StatusesOf(update)| ==> StatusesOf(update)[j].userId != StatusesOf(update)[i].userId
    requires user.id == StatusesOf(update)[i].userId
    requires var k := Key(USER, 0, 0, user.id, 0); s.Lookup(k) == Some(Entry(k, UserV(user), partial, expires))
    ensures var k := Key(USER, 0, 0, user.id, 0);
      Exec(s, ApplyUpdate(update), now).Lookup(k) ==
      Some(Entry(k, UserV(User(user.id, StatusesOf(update)[i].status, user.rest)), partial, now + s.ttl))
  {
    var k := Key(USER, 0, 0, user.id, 0);
    StatusIsLast(StatusesOf(update), i);
    ApplyUpdateFate(update, k, s.Lookup(k), s.Enabled(USER), now + s.ttl, now);
    StatusesStore(update);
    assert s.ListOk(USER);
    LookupWithRoom(s, ApplyUpdate(update), now, k,
                   AppliedFate(update, k, s.Lookup(k), s.Enabled(USER), now + s.ttl, now));
  }

  lemma StatusesStore(update: Update)
    requires update.UserStatus? || update.UserStatusBatch?
    ensures PutsOf(ApplyUpdate(update), USER) == 0
  {
    StatusStoresNothing(StatusesOf(update), USER);
    if update.UserStatus? {
      assert Each(UpdateStatus, [update.status]) == UpdateStatus(update.status) + Each(UpdateStatus, []);
    }
  }

  // ---------- Updates and calls ----------

  /** With room, an update makes of every key what it says of it, and fences the reads in flight. */
  lemma UpdatedLookup(s: State<Value>, update: Update, now: nat, k: Key)
    requires s.Valid() && s.ttl > 0 && HasRoom(s, ApplyUpdate(update), k.kind)
    ensures var r := Act(s, Change(ApplyUpdate(update)), now);
      && r.revision == s.revision + 1
      && r.Lookup(k) == AppliedFate(update, k, s.Lookup(k), s.Enabled(k.kind), now + s.ttl, now)
  {
    ApplyUpdateFate(update, k, s.Lookup(k), s.Enabled(k.kind), now + s.ttl, now);
    ChangeWithRoom(s, ApplyUpdate(update), now, k,
                   AppliedFate(update, k, s.Lookup(k), s.Enabled(k.kind), now + s.ttl, now));
  }

  lemma ChangeWithRoom(s: State<Value>, ops: Program, now: nat, k: Key, fate: Option<Entry<Value>>)
    requires s.Valid() && HasRoom(s, ops, k.kind)
    requires fate == Fate(ops, k, s.Lookup(k), s.Enabled(k.kind), now + s.ttl, now)
    ensures Act(s, Change(ops), now).revision == s.revision + 1 && Act(s, Change(ops), now).Lookup(k) == fate
  {
    CommitLookup(s, 0, ops, ops, now, k);
  }


  /** With room, the result of each of the reads is observed if the revision is the captured one and has
      no effect otherwise. */
  lemma ReadsAreAccepted(s: State<Value>, request: Request, captured: nat, result: Result, now: nat, k: Key)
    requires s.Valid() && HasRoom(s, ObserveResult(request, result), k.kind)
    requires match request
      case GetCommunities => true
      case GetChannels(_) => true
      case GetMembers(_, _) => true
      case GetRoles(_) => true
      case OtherRead(read, _) =>
        read in {GetChannelMembers, GetChat, GetChats, GetChatMembers, GetHistory, Search, GetPinnedMessages,
                 LookupUsername, GetProfile}
      case _ => false
    ensures var r := Act(s, Observed(request, captured, result), now);
      && r.revision == s.revision
      && r.Lookup(k) ==
         if captured == s.revision then ObservedFate(request, result, k, s.Lookup(k), s.Enabled(k.kind), now + s.ttl)
         else s.Lookup(k)
  {
    if k.kind < KINDS { ObservedWithRoom(s, request, result, now, k); }
    CommitLookup(s, captured, ObserveResult(request, result), [], now, k);
    ObserveResultFate(request, result, k, s.Lookup(k), s.Enabled(k.kind), now + s.ttl, now);
  }

  /** Every other call advances the revision; with room its result takes its full effect if the revision was
      the captured one, and else removes what the call touches. */
  lemma MutationsCommit(s: State<Value>, request: Request, captured: nat, result: Result, now: nat, k: Key)
    requires s.Valid() && HasRoom(s, ObserveMutation(request, result), k.kind)
    requires !(request.GetCommunities? || request.GetChannels? || request.GetMembers? || request.GetRoles?
               || request.OtherRead?)
    ensures var r, enabled := Act(s, Observed(request, captured, result), now), s.Enabled(k.kind);
      && r.revision == s.revision + 1
      && r.Lookup(k) ==
         if captured == s.revision then
           Fate(ObserveMutation(request, result), k, s.Lookup(k), enabled, now + s.ttl, now)
         else if Touched(request, result, k) then None
         else s.Lookup(k)
  {
    var ops, raced := ObserveMutation(request, result), InvalidateMutation(request, result);
    RacedRemoves(request, result);
    RemovalsStoreNothing(raced, k.kind);
    RacedFate(request, result, k, s.Lookup(k), s.Enabled(k.kind), now + s.ttl, now);
    MutateOrLose(s, captured, ops, raced, now, k, Touched(request, result, k));
  }

  lemma MutateOrLose(s: State<Value>, captured: nat, ops: Program, raced: Program, now: nat, k: Key, gone: bool)
    requires s.Valid() && HasRoom(s, ops, k.kind) && PutsOf(raced, k.kind) == 0
    requires Fate(raced, k, s.Lookup(k), s.Enabled(k.kind), now + s.ttl, now) == if gone then None else s.Lookup(k)
    ensures var r := Act(s, Mutate(captured, ops, raced), now);
      && r.revision == s.revision + 1
      && r.Lookup(k) ==
         if captured == s.revision then Fate(ops, k, s.Lookup(k), s.Enabled(k.kind), now + s.ttl, now)
         else if gone then None
         else s.Lookup(k)
  {
    if k.kind < KINDS { assert s.ListOk(k.kind); }
    CommitLookup(s, captured, ops, raced, now, k);
  }
}
