/** What the projections guarantee of the cache: entries are filed under their own keys, lists are
    authoritative, and mutations that lost a race only remove. */
module ProjectionGuarantees {
  import opened Wrappers
  import opened EntityKeys
  import opened Recency
  import opened CacheModel
  import opened CacheTheorems
  import opened Projection
  import opened ProjectionTheorems

  // ---------- Mutations ----------

  /** k is among what the mutation is about: everything it could change locally. */
  ghost predicate Touched(request: Request, result: Result, k: Key) {
    if !result.Void? then
      request.RemoveMembers? && result.RemovedMembers?
      && k == EntityKey(MEMBER, request.community, k.id) && k.id in result.userIds
    else
      match request
      case DeleteCommunity(id) => (k.kind == COMMUNITY && k.id == id) || (k.kind != USER && k.scope == id)
      case LeaveCommunity(id) => (k.kind == COMMUNITY && k.id == id) || (k.kind != USER && k.scope == id)
      case EditDefaultPermissions(id) => (k.kind == COMMUNITY && k.id == id) || (k.kind != USER && k.scope == id)
      case DeleteChannel(community, channel) =>
        k == EntityKey(CHANNEL, community, channel) || IsChannelMessage(k, community, channel)
      case EditCommunity(id, _, _) => k == EntityKey(COMMUNITY, 0, id)
      case EditChannel(community, channel) => k == EntityKey(CHANNEL, community, channel)
      case EditMember(community, id, _, _) => k == EntityKey(MEMBER, community, id)
      case RemoveMembers(community, ids) => k == EntityKey(MEMBER, community, k.id) && k.id in ids
      case EditRole(role) => k == EntityKey(ROLE, role.communityId, role.id)
      case DeleteRole(community, id) =>
        k == EntityKey(ROLE, community, id) || (k.kind == MEMBER && k.scope == community)
      case EditMessage(chat, id) => k == MessageKey(ChatRefFromProto(chat), id)
      case DeleteMessage(chat, ids) => k == MessageKey(ChatRefFromProto(chat), k.id) && k.id in ids
      case SetMessagePin(chat, id, _) => k == MessageKey(ChatRefFromProto(chat), id)
      case _ => false
  }

  predicate AmendsInPlace(request: Request) { request.EditCommunity? || request.EditMember? || request.SetMessagePin? }

  /** after is before with the fields the request gives, and no others, replaced. */
  ghost predicate AmendedBy(request: Request, before: Value, after: Value) {
    match (request, before, after)
    case (EditCommunity(_, name, username), CommunityV(b), CommunityV(a)) =>
      && a.id == b.id && a.rest == b.rest
      && (name.None? ==> a.name == b.name) && (name.Some? ==> a.name == name.value)
      && a.username == if username.None? then b.username else username
    case (EditMember(_, _, nickname, roleIds), MemberV(b), MemberV(a)) =>
      && a.id == b.id && a.communityId == b.communityId
      && a.nickname == (if nickname.None? then b.nickname else nickname)
      && (roleIds.None? ==> a.roleIds == b.roleIds) && (roleIds.Some? ==> a.roleIds == roleIds.value)
    case (SetMessagePin(_, _, pin), MessageV(b), MessageV(a)) =>
      a.pinned == Some(pin) && a.chatRef == b.chatRef && a.id == b.id && a.text == b.text
      && a.entities == b.entities && a.rest == b.rest
    case _ => false
  }

  /** An edit in place rewrites a live entry's given fields, drops a stale entry and leaves every other key. */
  lemma AmendFate(request: Request, k: Key, was: Option<Entry<Value>>, enabled: bool, expires: nat, now: nat)
    requires AmendsInPlace(request) && (was.Some? ==> was.value.key == k && Owns(k, was.value.value))
    ensures var r := Fate(ObserveMutation(request, Void), k, was, enabled, expires, now);
      if !Touched(request, Void, k) then r == was
      else if was.Some? && was.value.Live(now) then
        r.Some? && r.value.key == k && r.value.partial == was.value.partial && r.value.expires == expires
        && AmendedBy(request, was.value.value, r.value.value)
      else r.None?
  {
  }

  /** What an unraced void mutation makes of each key. */
  lemma MutationFate(request: Request, k: Key, was: Option<Entry<Value>>, enabled: bool, expires: nat, now: nat)
    requires was.Some? ==> was.value.key == k && Owns(k, was.value.value)
    ensures var r := Fate(ObserveMutation(request, Void), k, was, enabled, expires, now);
      if !Touched(request, Void, k) then r == was
      else if AmendsInPlace(request) then
        if was.Some? && was.value.Live(now) then
          r.Some? && r.value.key == k && r.value.partial == was.value.partial && r.value.expires == expires
          && AmendedBy(request, was.value.value, r.value.value)
        else r.None?
      else if request.EditRole? then
        r == if request.role.communityId != 0 && request.role.id != 0 && enabled
             then Some(Entry(k, RoleV(request.role), false, expires)) else was
      else r.None?
  {
    match request
    case DeleteChannel(community, channel) =>
      FateTwo(Delete(EntityKey(CHANNEL, community, channel)), DeleteWhere(MessagesOf(community, channel)),
              k, was, enabled, expires, now);
    case DeleteRole(community, id) =>
      FateTwo(Delete(EntityKey(ROLE, community, id)), DeleteWhere(OfKindIn(MEMBER, community)),
              k, was, enabled, expires, now);
    case RemoveMembers(community, ids) => FateOfMembers(community, ids, k, was, enabled, expires, now);
    case DeleteMessage(chat, ids) => FateOfMessages(chat, ids, k, was, enabled, expires, now);
    case EditRole(role) => assert RoleIn(role.communityId)(role) == RoleV(role);
    case _ => if AmendsInPlace(request) { AmendFate(request, k, was, enabled, expires, now); }
  }

  /** What an answered mutation makes of each key: a sent message is stored as a partial one, unless a
      complete one is known; removed members go; nothing else changes. */
  lemma AnswerFate(request: Request, result: Result, k: Key, was: Option<Entry<Value>>, enabled: bool,
                   expires: nat, now: nat)
    requires !result.Void?
    ensures Fate(ObserveMutation(request, result), k, was, enabled, expires, now) ==
      if request.SendMessage? && result.SentMessage? && k == MessageKey(ChatRefFromProto(request.chat), result.id) then
        if k.id == 0 || !enabled || (was.Some? && !was.value.partial && was.value.Live(now)) then was
        else
          Some(Entry(k, MessageV(Message(request.chat, k.id, request.text, request.entities, None, 0)), true, expires))
      else if request.RemoveMembers? && result.RemovedMembers? && k == EntityKey(MEMBER, request.community, k.id)
              && k.id in result.userIds then None
      else was
  {
    if request.RemoveMembers? && result.RemovedMembers? {
      FateOfMembers(request.community, result.userIds, k, was, enabled, expires, now);
    }
  }

  lemma FateOfMembers(community: nat, ids: seq<nat>, k: Key, was: Option<Entry<Value>>, enabled: bool, expires: nat,
                      now: nat)
    ensures Fate(Each(DeleteMember(community), ids), k, was, enabled, expires, now) ==
      if k == EntityKey(MEMBER, community, k.id) && k.id in ids then None else was
  {
    var hits := (id: nat) => k == EntityKey(MEMBER, community, id);
    FateOfRemovals(DeleteMember(community), hits, ids, k, was, enabled, expires, now);
    if k == EntityKey(MEMBER, community, k.id) && k.id in ids { assert hits(k.id); }
  }

  lemma FateOfMessages(chat: Option<ProtoChatRef>, ids: seq<nat>, k: Key, was: Option<Entry<Value>>, enabled: bool,
                       expires: nat, now: nat)
    ensures Fate(Each(DeleteMessageIn(chat), ids), k, was, enabled, expires, now) ==
      if k == MessageKey(ChatRefFromProto(chat), k.id) && k.id in ids then None else was
  {
    var hits := (id: nat) => k == MessageKey(ChatRefFromProto(chat), id);
    FateOfRemovals(DeleteMessageIn(chat), hits, ids, k, was, enabled, expires, now);
    if k == MessageKey(ChatRefFromProto(chat), k.id) && k.id in ids { assert hits(k.id); }
  }

  lemma RacedFate(request: Request, result: Result, k: Key, was: Option<Entry<Value>>, enabled: bool, expires: nat,
                  now: nat)
    ensures Fate(InvalidateMutation(request, result), k, was, enabled, expires, now) ==
      if Touched(request, result, k) then None else was
  {
    if !result.Void? {
      if request.RemoveMembers? && result.RemovedMembers? {
        FateOfMembers(request.community, result.userIds, k, was, enabled, expires, now);
      }
    } else {
      match request
      case DeleteChannel(community, channel) =>
        FateTwo(Delete(EntityKey(CHANNEL, community, channel)), DeleteWhere(MessagesOf(community, channel)),
                k, was, enabled, expires, now);
      case DeleteRole(community, id) =>
        FateTwo(Delete(EntityKey(ROLE, community, id)), DeleteWhere(OfKindIn(MEMBER, community)),
                k, was, enabled, expires, now);
      case RemoveMembers(community, ids) => FateOfMembers(community, ids, k, was, enabled, expires, now);
      case DeleteMessage(chat, ids) => FateOfMessages(chat, ids, k, was, enabled, expires, now);
      case _ =>
    }
  }

  /** Every operation of a loop is an operation of one of its rounds. */
  lemma {:induction false} EachAll<T(!new)>(f: T -> Program, xs: seq<T>, p: Op<Value> -> bool)
    requires forall x, op :: x in xs && op in f(x) ==> p(op)
    ensures forall op :: op in Each(f, xs) ==> p(op)
  {
    if xs != [] {
      EachAll(f, xs[1..], p);
      assert xs[0] in xs;
    }
  }

  lemma RacedRemoves(request: Request, result: Result)
    ensures Removals(InvalidateMutation(request, result))
  {
    var p := (op: Op<Value>) => Removal(op);
    match request
    case RemoveMembers(community, ids) =>
      EachAll(DeleteMember(community), ids, p);
      if result.RemovedMembers? { EachAll(DeleteMember(community), result.userIds, p); }
    case DeleteMessage(chat, ids) => EachAll(DeleteMessageIn(chat), ids, p);
    case _ =>
  }

  lemma {:induction false} RemovalsStoreNothing(ops: Program, kind: Kind)
    requires Removals(ops)
    ensures PutsOf(ops, kind) == 0
  {
    if ops != [] {
      assert Removal(ops[0]);
      RemovalsStoreNothing(ops[1..], kind);
    }
  }

  lemma RacedLookup(s: State<Value>, request: Request, result: Result, now: nat, k: Key)
    requires s.Valid()
    ensures Exec(s, InvalidateMutation(request, result), now).Lookup(k) ==
      if Touched(request, result, k) then None else s.Lookup(k)
  {
    var ops := InvalidateMutation(request, result);
    RacedRemoves(request, result);
    RemovalsStoreNothing(ops, k.kind);
    if k.kind < KINDS { assert s.ListOk(k.kind); }
    ExecFate(s, ops, now, k);
    RacedFate(request, result, k, s.Lookup(k), s.Enabled(k.kind), now + s.ttl, now);
  }

  lemma UntouchedFate(s: State<Value>, request: Request, now: nat, k: Key)
    requires s.Valid() && Everywhere(s, Filed()) && !Touched(request, Void, k)
    ensures Fate(ObserveMutation(request, Void), k, s.Lookup(k), s.Enabled(k.kind), now + s.ttl, now) == s.Lookup(k)
  {
    var was := s.Lookup(k);
    assert was.Some? ==> Filed()(was.value);
    MutationFate(request, k, was, s.Enabled(k.kind), now + s.ttl, now);
  }

  /** A mutation that lost a race removes exactly what it touched, keeps every other entry unchanged
      and in order, and so leaves nothing under any key that its edit would have changed. */
  lemma RacedMutationsOnlyShrink(s: State<Value>, request: Request, result: Result, now: nat)
    requires s.Valid() && Everywhere(s, Filed())
    ensures var r := Exec(s, InvalidateMutation(request, result), now);
      && (forall kind: Kind :: kind < KINDS ==> Sublist(r.lists[kind], s.lists[kind]))
      && (forall k :: r.Lookup(k) == if Touched(request, result, k) then None else s.Lookup(k))
      && (result.Void? ==> forall k ::
            Fate(ObserveMutation(request, result), k, s.Lookup(k), s.Enabled(k.kind), now + s.ttl, now) != s.Lookup(k)
            ==> r.Lookup(k).None?)
  {
    RacedRemoves(request, result);
    ExecRemovals(s, InvalidateMutation(request, result), now);
    forall k: Key
      ensures Exec(s, InvalidateMutation(request, result), now).Lookup(k) ==
      if Touched(request, result, k) then None else s.Lookup(k)
      ensures result.Void? && !Touched(request, result, k) ==>
        Fate(ObserveMutation(request, result), k, s.Lookup(k), s.Enabled(k.kind), now + s.ttl, now) == s.Lookup(k)
    {
      RacedLookup(s, request, result, now, k);
      if result.Void? && !Touched(request, result, k) { UntouchedFate(s, request, now, k); }
    }
  }

  // ---------- Every entry is filed under its own key ----------

  function Filed(): Entry<Value> -> bool { (e: Entry<Value>) => Owns(e.key, e.value) }

  ghost predicate Files(op: Op<Value>) {
    match op
    case Put(k, v, _) => k == KeyOf(v)
    case Edit(k, edit) => forall v :: KeyOf(v) == k ==> KeyOf(edit(v)) == k
    case _ => true
  }

  ghost predicate AllFile(ops: Program) { forall op :: op in ops ==> Files(op) }

  lemma EachFiles<T(!new)>(f: T -> Program, xs: seq<T>)
    requires forall x :: x in xs ==> AllFile(f(x))
    ensures AllFile(Each(f, xs))
  {
    EachAll(f, xs, (op: Op<Value>) => Files(op));
  }

  lemma ListFiles(request: Request, result: Result)
    requires result.Communities? || result.Channels? || result.Members? || result.CommunityRoles?
    ensures forall op :: op in ObserveResult(request, result) ==> Files(op) && (op.Put? ==> !op.partial)
  {
    var p := (op: Op<Value>) => Files(op) && (op.Put? ==> !op.partial);
    EachAll(PutValue, CarriedByResult(request, result), p);
    ListsAreSweepThenCarried(request, result);
    if result.Communities? { EachAll(InvalidateCommunity, result.unavailable, p); }
    if request.GetMembers? { EachAll(DeleteMember(request.community), request.memberIds, p); }
  }

  lemma ResultFiles(request: Request, result: Result)
    ensures AllFile(ObserveResult(request, result))
    ensures forall op :: op in ObserveResult(request, result) && op.Put? ==> !op.partial
  {
    if result.Communities? || result.Channels? || result.Members? || result.CommunityRoles? {
      ListFiles(request, result);
    } else {
      ResultIsCarried(request, result);
      EachAll(PutValue, CarriedByResult(request, result), (op: Op<Value>) => Files(op) && (op.Put? ==> !op.partial));
    }
  }

  lemma UpdateFiles(update: Update)
    ensures AllFile(ApplyUpdate(update))
  {
    EachFiles(PutValue, CarriedByUpdate(update));
    if OnlyCarries(update) {
      UpdateIsCarried(update);
    } else {
      match update
      case MessageDeleted(chat, ids) => EachFiles(DeleteMessageIn(chat), ids);
      case UserStatusBatch(statuses) => EachFiles(UpdateStatus, statuses);
      case MemberCreated(community, _, member, user) =>
        ScopesAreFilledIn(community);
        assert ApplyUpdate(update) == NewMemberProgram(community, update.memberId, member, user);
      case _ =>
    }
  }

  lemma MutationFiles(request: Request, result: Result)
    ensures AllFile(ObserveMutation(request, result)) && AllFile(InvalidateMutation(request, result))
  {
    RacedRemoves(request, result);
    match request
    case RemoveMembers(community, ids) =>
      EachFiles(DeleteMember(community), ids);
      if result.RemovedMembers? { EachFiles(DeleteMember(community), result.userIds); }
    case DeleteMessage(chat, ids) => EachFiles(DeleteMessageIn(chat), ids);
    case EditRole(role) => assert RoleIn(role.communityId)(role) == RoleV(role);
    case _ =>
  }

  /** The actions that the client performs on its cache. */
  ghost predicate Projects(a: Action<Value>) {
    match a
    case Change(ops) =>
      || (exists update :: ops == ApplyUpdate(update))
      || (exists matches :: ops == [DeleteWhere(matches)])
    case Accept(_, ops) => exists request, result :: ops == ObserveResult(request, result)
    case Mutate(_, ops, raced) => exists request, result ::
      ops == ObserveMutation(request, result) && raced == InvalidateMutation(request, result)
    case _ => true
  }

  lemma FilesUpholds(ops: Program)
    requires AllFile(ops)
    ensures AllUphold(ops, Filed())
  {
    forall op | op in ops ensures Upholds(op, Filed()) { assert Files(op); }
  }

  lemma ActFiled(s: State<Value>, a: Action<Value>, now: nat)
    requires s.Valid() && Everywhere(s, Filed()) && Projects(a)
    ensures Everywhere(Act(s, a, now), Filed())
  {
    match a {
      case Change(ops) =>
        if update :| ops == ApplyUpdate(update) { UpdateFiles(update); }
        FilesUpholds(ops);
      case Accept(_, ops) =>
        var request, result :| ops == ObserveResult(request, result);
        ResultFiles(request, result);
        FilesUpholds(ops);
      case Mutate(_, ops, raced) =>
        var request, result :| ops == ObserveMutation(request, result) && raced == InvalidateMutation(request, result);
        MutationFiles(request, result);
        FilesUpholds(ops);
        FilesUpholds(raced);
      case _ =>
    }
    ActUpholds(s, a, now, Filed());
  }

  /** In every run of the client, whatever is cached under a key is an entity of that key's kind, community
      and id, and a message of that key's chat: Owns says so field by field. So no type assertion on a
      cached value can fail and no scope leaks into another. */
  lemma {:induction false} RunFiled(s: State<Value>, trace: seq<Timed<Value>>)
    requires s.Valid() && Everywhere(s, Filed())
    requires forall i :: 0 <= i < |trace| ==> Projects(trace[i].action)
    ensures Everywhere(Run(s, trace), Filed())
    ensures forall k :: Run(s, trace).Lookup(k).Some? ==> Owns(k, Run(s, trace).Lookup(k).value.value)
  {
    if trace != [] {
      var front, last := trace[..|trace| - 1], trace[|trace| - 1];
      RunFiled(s, front);
      RunValid(s, front);
      ActFiled(Run(s, front), last.action, last.now);
    }
  }

  // ---------- Authoritative lists ----------

  lemma LookupOrLost(s: State<Value>, ops: Program, now: nat, k: Key, fate: Option<Entry<Value>>)
    requires s.Valid() && forall op :: op in ops && op.Put? ==> !op.partial
    requires fate == Fate(ops, k, s.Lookup(k), s.Enabled(k.kind), now + s.ttl, now)
    ensures Exec(s, ops, now).Lookup(k).None? || Exec(s, ops, now).Lookup(k) == fate
  {
    ExecLossy(s, ops, now, k, s.Lookup(k));
  }

  lemma ObservedOrLost(s: State<Value>, request: Request, result: Result, now: nat, k: Key)
    requires s.Valid()
    ensures var r := Exec(s, ObserveResult(request, result), now).Lookup(k);
      r.None? || r == ObservedFate(request, result, k, s.Lookup(k), s.Enabled(k.kind), now + s.ttl)
  {
    ResultFiles(request, result);
    ObserveResultFate(request, result, k, s.Lookup(k), s.Enabled(k.kind), now + s.ttl, now);
    LookupOrLost(s, ObserveResult(request, result), now, k,
                 ObservedFate(request, result, k, s.Lookup(k), s.Enabled(k.kind), now + s.ttl));
  }

  lemma ObservedWithRoom(s: State<Value>, request: Request, result: Result, now: nat, k: Key)
    requires s.Valid() && k.kind < KINDS
    requires |s.lists[k.kind]| + PutsOf(ObserveResult(request, result), k.kind) <= Max0(s.limits[k.kind])
    ensures Exec(s, ObserveResult(request, result), now).Lookup(k) ==
            ObservedFate(request, result, k, s.Lookup(k), s.Enabled(k.kind), now + s.ttl)
  {
    ObserveResultFate(request, result, k, s.Lookup(k), s.Enabled(k.kind), now + s.ttl, now);
    LookupWithRoom(s, ObserveResult(request, result), now, k,
                   ObservedFate(request, result, k, s.Lookup(k), s.Enabled(k.kind), now + s.ttl));
  }

  lemma LookupWithRoom(s: State<Value>, ops: Program, now: nat, k: Key, fate: Option<Entry<Value>>)
    requires s.Valid() && k.kind < KINDS && |s.lists[k.kind]| + PutsOf(ops, k.kind) <= Max0(s.limits[k.kind])
    requires fate == Fate(ops, k, s.Lookup(k), s.Enabled(k.kind), now + s.ttl, now)
    ensures Exec(s, ops, now).Lookup(k) == fate
  {
    ExecFate(s, ops, now, k);
  }

  /** After a read is observed, each key holds its fate or, for want of room, nothing. */
  lemma ObservedLookup(s: State<Value>, request: Request, result: Result, now: nat, k: Key)
    requires s.Valid()
    ensures var r := Exec(s, ObserveResult(request, result), now).Lookup(k);
      var fate := ObservedFate(request, result, k, s.Lookup(k), s.Enabled(k.kind), now + s.ttl);
      && (r.None? || r == fate)
      && (k.kind < KINDS && |s.lists[k.kind]| + PutsOf(ObserveResult(request, result), k.kind) <= Max0(s.limits[k.kind])
          ==> r == fate)
  {
    ObservedOrLost(s, request, result, now, k);
    if k.kind < KINDS && |s.lists[k.kind]| + PutsOf(ObserveResult(request, result), k.kind) <= Max0(s.limits[k.kind]) {
      ObservedWithRoom(s, request, result, now, k);
    }
  }

  lemma {:induction false} CarriedIsListed(vs: seq<Value>, k: Key)
    ensures LastFor(vs, k).Some? ==> var v := LastFor(vs, k).value; v in vs && Placeable(v) && Owns(k, v)
    decreases |vs|
  {
    if vs != [] { CarriedIsListed(vs[..|vs| - 1], k); }
  }

  /** A full list of communities leaves nothing of any community that is unlisted or unavailable. */
  lemma CommunitiesAreAuthoritative(s: State<Value>, request: Request, cs: seq<Community>, unavailable: seq<nat>,
                                    now: nat, k: Key)
    requires s.Valid() && Everywhere(s, Filed())
    requires Exec(s, ObserveResult(request, Communities(cs, unavailable)), now).Lookup(k).Some?
    ensures k.kind == COMMUNITY ==> k.id !in unavailable && exists c :: c in cs && c.id == k.id
    ensures k.scope != 0 ==> k.scope !in unavailable && exists c :: c in cs && c.id == k.scope
  {
    var result := Communities(cs, unavailable);
    ObservedOrLost(s, request, result, now, k);
    ResultFiles(request, result);
    FilesUpholds(ObserveResult(request, result));
    ExecUpholds(s, ObserveResult(request, result), now, Filed());
    CarriedIsListed(CarriedByResult(request, result), k);
    assert k.id in unavailable ==> OfCommunity(k.id)(k) || k.kind != COMMUNITY;
    assert k.scope in unavailable ==> OfCommunity(k.scope)(k) || k.kind == USER;
    assert !MissingFrom(request, result, k) || exists c :: c in cs && Owns(k, CommunityV(c));
  }

  /** A channel list leaves no channel of the community that it does not list, and no message of the
      community that is neither in a listed channel nor carried by the list itself. */
  lemma ChannelsAreAuthoritative(s: State<Value>, community: nat, cs: seq<Channel>, ms: seq<Message>, now: nat, k: Key)
    requires s.Valid() && k.scope == community
    requires Exec(s, ObserveResult(GetChannels(community), Channels(cs, ms)), now).Lookup(k).Some?
    ensures k.kind == CHANNEL ==> exists c :: c in cs && c.id == k.id
    ensures k.kind == MESSAGE ==>
      (exists c :: c in cs && c.id == k.parent) || (exists m :: m in ms && Owns(k, MessageV(m)))
  {
    var request, result := GetChannels(community), Channels(cs, ms);
    ObservedOrLost(s, request, result, now, k);
    CarriedIsListed(CarriedByResult(request, result), k);
    var carried := LastFor(CarriedByResult(request, result), k);
    if carried.Some? {
      var v := carried.value;
      assert v in Map(AsChannel(), cs) || v in Map(AsMessage(), ms);
      assert (exists c :: c in cs && v == ChannelV(c)) || (exists m :: m in ms && v == MessageV(m));
    }
  }

  /** Targeted members that the response omits are gone, and a bulk list that is not just a users
      sidecar leaves no other member of the community. */
  lemma MembersAreAuthoritative(s: State<Value>, community: nat, ids: seq<nat>, ms: seq<Member>, us: seq<User>,
                                now: nat, id: nat)
    requires id in ids || (ids == [] && (ms != [] || us == []))
    requires s.Valid()
    requires var program := ObserveResult(GetMembers(community, ids), Members(ms, us));
      Exec(s, program, now).Lookup(EntityKey(MEMBER, community, id)).Some?
    ensures exists m :: m in ms && m.id == id && (m.communityId == community || m.communityId == 0)
  {
    var request, result := GetMembers(community, ids), Members(ms, us);
    var k := EntityKey(MEMBER, community, id);
    ObservedOrLost(s, request, result, now, k);
    CarriedIsListed(CarriedByResult(request, result), k);
    var v := LastFor(CarriedByResult(request, result), k).value;
    assert v in Map(AsUser(), us) || v in Map(AsMemberOf(community), ms);
    assert v in Map(AsMemberOf(community), ms);
    assert exists m :: m in ms && v == AsMemberOf(community)(m);
  }

  /** After a role list, the roles cached for the community are among those it returned. */
  lemma RolesAreAuthoritative(s: State<Value>, community: nat, rs: seq<Role>, now: nat, k: Key)
    requires s.Valid() && k.kind == ROLE && k.scope == community
    requires Exec(s, ObserveResult(GetRoles(community), CommunityRoles(rs)), now).Lookup(k).Some?
    ensures exists r :: r in rs && r.id == k.id && (r.communityId == community || r.communityId == 0)
  {
    var request, result := GetRoles(community), CommunityRoles(rs);
    ObservedOrLost(s, request, result, now, k);
    CarriedIsListed(CarriedByResult(request, result), k);
    var v := LastFor(CarriedByResult(request, result), k).value;
    assert exists r :: r in rs && v == AsRoleOf(community)(r);
  }

  // ---------- Chats ----------

  /** Clearing a chat's manager removes exactly that chat's messages, and invalidating a channel just
      those and the channel itself; survivors are unchanged and keep their order. */
  lemma ChatSweepsAreExact(s: State<Value>, chat: ChatRef, now: nat)
    requires s.Valid() && chat.Valid()
    ensures var r := Act(s, Change([DeleteWhere((k: Key) => Manager(MESSAGE, 0, chat).Matches(k))]), now);
      && (forall k :: r.Lookup(k) == if exists id: nat :: k == MessageKey(chat, id) then None else s.Lookup(k))
      && (forall kind: Kind :: kind < KINDS ==> Sublist(r.lists[kind], s.lists[kind]))
    ensures chat.channelId != 0 ==>
      var r := Exec(s, InvalidateChannel(chat.communityId, chat.channelId), now);
      && (forall k :: r.Lookup(k) ==
            if k == EntityKey(CHANNEL, chat.communityId, chat.channelId) || exists id: nat :: k == MessageKey(chat, id)
            then None else s.Lookup(k))
      && (forall kind: Kind :: kind < KINDS ==> Sublist(r.lists[kind], s.lists[kind]))
  {
    var clear: Op<Value> := DeleteWhere((k: Key) => Manager(MESSAGE, 0, chat).Matches(k));
    var t := s.(revision := s.revision + 1);
    var sweep := InvalidateChannel(chat.communityId, chat.channelId);
    RevisionIsFree(s, s.revision + 1);
    ExecRemovals(t, [clear], now);
    ExecRemovals(s, sweep, now);
    forall k: Key
      ensures Exec(t, [clear], now).Lookup(k) ==
        if exists id: nat :: k == MessageKey(chat, id) then None else s.Lookup(k)
      ensures chat.channelId != 0 ==>
        Exec(s, sweep, now).Lookup(k) ==
        if k == EntityKey(CHANNEL, chat.communityId, chat.channelId) || exists id: nat :: k == MessageKey(chat, id)
        then None else s.Lookup(k)
    {
      ChatManagerSelectsItsChat(chat, 0, k);
      if k.kind < KINDS { assert s.ListOk(k.kind) && t.ListOk(k.kind); }
      RemovalsStoreNothing([clear], k.kind);
      RemovalsStoreNothing(sweep, k.kind);
      ExecFate(t, [clear], now, k);
      ExecFate(s, sweep, now, k);
      FateTwo(sweep[0], sweep[1], k, s.Lookup(k), s.Enabled(k.kind), now + s.ttl, now);
    }
  }
}
