/** What the projections mean key by key, stated apart from the order of their steps: which entities a
    message carries, which keys it declares gone, which entries it amends. */
module ProjectionTheorems {
  import opened Wrappers
  import opened EntityKeys
  import opened Recency
  import opened CacheModel
  import opened CacheTheorems
  import opened Projection

  // ---------- Carried entities ----------

  function Map<T>(f: T -> Value, xs: seq<T>): (r: seq<Value>)
    ensures |r| == |xs| && forall i :: 0 <= i < |xs| ==> r[i] == f(xs[i])
  {
    if xs == [] then [] else [f(xs[0])] + Map(f, xs[1..])
  }

  function Listed<T>(f: T -> Value, x: Option<T>): seq<Value> { if x.None? then [] else [f(x.value)] }

  function AsUser(): User -> Value { (u: User) => UserV(u) }
  function AsCommunity(): Community -> Value { (c: Community) => CommunityV(c) }
  function AsChannel(): Channel -> Value { (c: Channel) => ChannelV(c) }
  function AsMessage(): Message -> Value { (m: Message) => MessageV(m) }

  /** A member or role that names no community is taken as one of the given community, else as it came. */
  function AsMemberOf(scope: nat): Member -> Value {
    (m: Member) => MemberV(Member(m.id, if m.communityId != 0 then m.communityId else scope, m.roleIds, m.nickname))
  }

  function AsRoleOf(scope: nat): Role -> Value {
    (r: Role) => RoleV(Role(r.id, if r.communityId != 0 then r.communityId else scope, r.name, r.permissions,
                            r.priority, r.color, r.separated, r.public))
  }

  function Known(entries: seq<Option<User>>): seq<Value> {
    if entries == [] then [] else Listed(AsUser(), entries[0]) + Known(entries[1..])
  }

  /** k is the key of v, field by field: its kind, its community if its kind has one, and its id; of a
      message its chat besides. */
  predicate Owns(k: Key, v: Value) {
    match v
    case UserV(u) => k == Key(USER, 0, 0, u.id, 0)
    case CommunityV(c) => k == Key(COMMUNITY, 0, 0, c.id, 0)
    case ChannelV(c) => k == Key(CHANNEL, c.communityId, 0, c.id, 0)
    case MemberV(m) => k == Key(MEMBER, m.communityId, 0, m.id, 0)
    case RoleV(r) => k == Key(ROLE, r.communityId, 0, r.id, 0)
    case MessageV(m) => OwnsMessage(k, m)
  }

  predicate OwnsMessage(k: Key, m: Message) {
    match m.chatRef
    case Some(ChannelRef(community, channel)) =>
      k == if community != 0 then Key(MESSAGE, community, channel, m.id, 1) else Key(MESSAGE, 0, 0, m.id, 0)
    case Some(UserRef(user)) => k == Key(MESSAGE, 0, user, m.id, if user != 0 then 2 else 0)
    case Some(GroupRef(group)) => k == Key(MESSAGE, 0, group, m.id, if group != 0 then 3 else 0)
    case Some(SelfRef) => k == Key(MESSAGE, 0, 0, m.id, 4)
    case _ => k == Key(MESSAGE, 0, 0, m.id, 0)
  }

  /** v says where it belongs: a user and a community always, the rest if it names its community or chat. */
  predicate Placeable(v: Value) {
    match v
    case UserV(_) => true
    case CommunityV(_) => true
    case ChannelV(c) => c.communityId != 0
    case MemberV(m) => m.communityId != 0
    case RoleV(r) => r.communityId != 0
    case MessageV(m) =>
      match m.chatRef
      case Some(ChannelRef(community, channel)) => community != 0 && channel != 0
      case Some(UserRef(user)) => user != 0
      case Some(GroupRef(group)) => group != 0
      case Some(SelfRef) => true
      case _ => false
  }

  /** The key function and the guards of the put helpers, field by field. */
  lemma KeysAreOwned(k: Key, v: Value)
    ensures Owns(k, v) <==> k == KeyOf(v)
    ensures Placeable(v) <==> Cacheable(v)
  {
  }

  /** putMember and putRole change nothing but an absent community. */
  lemma ScopesAreFilledIn(scope: nat)
    ensures forall m: Member :: MemberIn(scope)(m) == AsMemberOf(scope)(m)
    ensures forall r: Role :: RoleIn(scope)(r) == AsRoleOf(scope)(r)
  {
    forall m: Member ensures MemberIn(scope)(m) == AsMemberOf(scope)(m) {
      match m case Member(_, _, _, _) =>
    }
    forall r: Role ensures RoleIn(scope)(r) == AsRoleOf(scope)(r) {
      match r case Role(_, _, _, _, _, _, _, _) =>
    }
  }

  /** The entity that a message carries for a key: the last one that belongs there. */
  function LastFor(vs: seq<Value>, k: Key): Option<Value> {
    if vs == [] then None
    else if Placeable(vs[|vs| - 1]) && Owns(k, vs[|vs| - 1]) then Some(vs[|vs| - 1])
    else LastFor(vs[..|vs| - 1], k)
  }

  function CarriedByResult(request: Request, result: Result): seq<Value> {
    match result
    case Communities(cs, _) => Map(AsCommunity(), cs)
    case Channels(cs, ms) => Map(AsChannel(), cs) + Map(AsMessage(), ms)
    case Members(ms, us) =>
      Map(AsUser(), us) + Map(AsMemberOf(if request.GetMembers? then request.community else 0), ms)
    case CommunityRoles(rs) => Map(AsRoleOf(if request.GetRoles? then request.community else 0), rs)
    case Messages(us, members, ms) => Map(AsUser(), us) + Map(AsMemberOf(0), members) + Map(AsMessage(), ms)
    case Chat(us, c, m) => Map(AsUser(), us) + Listed(AsChannel(), c) + Listed(AsMessage(), m)
    case Chats(us, cs, ms) => Map(AsUser(), us) + Map(AsChannel(), cs) + Map(AsMessage(), ms)
    case ChatMembers(us) => Map(AsUser(), us)
    case UserDetails(u) => Listed(AsUser(), u)
    case MemberList(entries) => Known(entries)
    case _ => []
  }

  /** A full list shows k to be gone. */
  ghost predicate MissingFrom(request: Request, result: Result, k: Key) {
    match result
    case Communities(cs, _) =>
      || (k.kind == COMMUNITY && forall c :: c in cs ==> c.id != k.id)
      || (k.scope != 0 && forall c :: c in cs ==> c.id != k.scope)
    case Channels(cs, _) =>
      request.GetChannels? && k.scope == request.community &&
      (|| (k.kind == CHANNEL && forall c :: c in cs ==> c.id != k.id)
       || (k.kind == MESSAGE && forall c :: c in cs ==> c.id != k.parent))
    case Members(ms, us) =>
      request.GetMembers? && k.kind == MEMBER && k.scope == request.community &&
      (if request.memberIds != [] then k.parent == 0 && k.chat == 0 && k.id in request.memberIds
       else ms != [] || us == [])
    case CommunityRoles(_) =>
      k.kind == ROLE && k.scope == if request.GetRoles? then request.community else 0
    case _ => false
  }

  /** k belongs to a community that the result declares unavailable. */
  ghost predicate Unavailable(result: Result, k: Key) {
    result.Communities? && ((k.kind == COMMUNITY && k.id in result.unavailable)
                            || (k.kind != USER && k.scope in result.unavailable))
  }

  ghost function ObservedFate(request: Request, result: Result, k: Key, was: Option<Entry<Value>>,
                              enabled: bool, expires: nat): Option<Entry<Value>>
  {
    var carried := LastFor(CarriedByResult(request, result), k);
    if Unavailable(result, k) then None
    else if carried.Some? && k.id != 0 && enabled then Some(Entry(k, carried.value, false, expires))
    else if MissingFrom(request, result, k) then None
    else was
  }

  // ---------- Programs piece by piece ----------

  lemma {:induction false} FateConcat(a: Program, b: Program, k: Key, was: Option<Entry<Value>>, enabled: bool,
                                      expires: nat, now: nat)
    ensures Fate(a + b, k, was, enabled, expires, now) ==
            Fate(b, k, Fate(a, k, was, enabled, expires, now), enabled, expires, now)
    decreases |a|
  {
    if a == [] {
      assert a + b == b;
    } else {
      assert (a + b)[0] == a[0] && (a + b)[1..] == a[1..] + b;
      FateConcat(a[1..], b, k, FateStep(a[0], k, was, enabled, expires, now), enabled, expires, now);
    }
  }

  lemma FateOne(op: Op<Value>, k: Key, was: Option<Entry<Value>>, enabled: bool, expires: nat, now: nat)
    ensures Fate([op], k, was, enabled, expires, now) == FateStep(op, k, was, enabled, expires, now)
  {
  }

  lemma FateTwo(a: Op<Value>, b: Op<Value>, k: Key, was: Option<Entry<Value>>, enabled: bool, expires: nat, now: nat)
    ensures Fate([a, b], k, was, enabled, expires, now) ==
            FateStep(b, k, FateStep(a, k, was, enabled, expires, now), enabled, expires, now)
  {
    assert [a, b] == [a] + [b];
    FateConcat([a], [b], k, was, enabled, expires, now);
  }

  lemma {:induction false} EachConcat<T>(f: T -> Program, a: seq<T>, b: seq<T>)
    ensures Each(f, a + b) == Each(f, a) + Each(f, b)
    decreases |a|
  {
    if a == [] {
      assert a + b == b;
    } else {
      assert (a + b)[0] == a[0] && (a + b)[1..] == a[1..] + b;
      EachConcat(f, a[1..], b);
    }
  }

  lemma EachSnoc<T>(f: T -> Program, xs: seq<T>, i: nat)
    requires i < |xs|
    ensures Each(f, xs[..i + 1]) == Each(f, xs[..i]) + f(xs[i])
  {
    assert xs[..i + 1] == xs[..i] + [xs[i]];
    EachConcat(f, xs[..i], [xs[i]]);
    assert Each(f, [xs[i]]) == f(xs[i]) + Each(f, [xs[i]][1..]) == f(xs[i]);
  }

  /** A loop of puts is one program over the carried entities. */
  lemma {:induction false} EachIsMap<T>(f: T -> Program, g: T -> Value, xs: seq<T>)
    requires forall x :: x in xs ==> f(x) == PutValue(g(x))
    ensures Each(f, xs) == Each(PutValue, Map(g, xs))
  {
    if xs != [] {
      EachIsMap(f, g, xs[1..]);
      assert Map(g, xs)[1..] == Map(g, xs[1..]);
    }
  }

  lemma OptionalIsListed<T>(f: T -> Program, g: T -> Value, x: Option<T>)
    requires x.Some? ==> f(x.value) == PutValue(g(x.value))
    ensures Optional(f, x) == Each(PutValue, Listed(g, x))
  {
    if x.Some? {
      assert Listed(g, x)[1..] == [];
      assert Each(PutValue, Listed(g, x)) == PutValue(g(x.value)) + [];
    }
  }

  lemma {:induction false} KnownIsCarried(entries: seq<Option<User>>)
    ensures Each(PutEntry, entries) == Each(PutValue, Known(entries))
  {
    if entries != [] {
      KnownIsCarried(entries[1..]);
      OptionalIsListed(PutUser, AsUser(), entries[0]);
      EachConcat(PutValue, Listed(AsUser(), entries[0]), Known(entries[1..]));
    }
  }

  /** Storing what a message carries files, under each key, the last entity carried for it. */
  lemma {:induction false} FateOfCarried(vs: seq<Value>, k: Key, was: Option<Entry<Value>>, enabled: bool,
        expires: nat, now: nat)
    ensures Fate(Each(PutValue, vs), k, was, enabled, expires, now) ==
      if LastFor(vs, k).Some? && k.id != 0 && enabled then Some(Entry(k, LastFor(vs, k).value, false, expires))
      else was
    decreases |vs|
  {
    if vs != [] {
      var front, v := vs[..|vs| - 1], vs[|vs| - 1];
      FateOfCarried(front, k, was, enabled, expires, now);
      EachSnoc(PutValue, vs, |vs| - 1);
      assert vs[..|vs|] == vs;
      FateConcat(Each(PutValue, front), PutValue(v), k, was, enabled, expires, now);
      var before := Fate(Each(PutValue, front), k, was, enabled, expires, now);
      KeysAreOwned(k, v);
      if Cacheable(v) { FateOne(Put(KeyOf(v), v, false), k, before, enabled, expires, now); }
    }
  }

  /** A loop of removals removes what any of them does. */
  lemma {:induction false} FateOfRemovals<T>(f: T -> Program, hits: T -> bool, xs: seq<T>, k: Key,
      was: Option<Entry<Value>>, enabled: bool, expires: nat, now: nat)
    requires forall x, w :: x in xs ==> Fate(f(x), k, w, enabled, expires, now) == if hits(x) then None else w
    ensures Fate(Each(f, xs), k, was, enabled, expires, now) == if exists x :: x in xs && hits(x) then None else was
  {
    if xs != [] {
      FateConcat(f(xs[0]), Each(f, xs[1..]), k, was, enabled, expires, now);
      FateOfRemovals(f, hits, xs[1..], k, Fate(f(xs[0]), k, was, enabled, expires, now), enabled, expires, now);
      assert xs == [xs[0]] + xs[1..];
    }
  }

  // ---------- Reads ----------

  function Sweep(request: Request, result: Result): Program {
    match result
    case Communities(cs, _) => [DeleteWhere(OutsideCommunities(CommunityIds(cs)))]
    case Channels(cs, _) => ChannelSweep(request, cs)
    case Members(ms, us) => MemberSweep(request, ms, us)
    case CommunityRoles(_) => [DeleteWhere(OfKindIn(ROLE, if request.GetRoles? then request.community else 0))]
    case _ => []
  }

  function Withdrawal(result: Result): Program {
    if result.Communities? then Each(InvalidateCommunity, result.unavailable) else []
  }

  lemma PutTriple(a: seq<Value>, b: seq<Value>, c: seq<Value>)
    ensures Each(PutValue, a + b + c) == Each(PutValue, a) + Each(PutValue, b) + Each(PutValue, c)
    ensures Each(PutValue, a + b) == Each(PutValue, a) + Each(PutValue, b)
  {
    EachConcat(PutValue, a, b);
    EachConcat(PutValue, a + b, c);
  }

  lemma PutsAreCarried<A, B>(f: A -> Program, g: A -> Value, xs: seq<A>, h: B -> Program, j: B -> Value, ys: seq<B>)
    requires forall x :: x in xs ==> f(x) == PutValue(g(x))
    requires forall y :: y in ys ==> h(y) == PutValue(j(y))
    ensures Each(f, xs) + Each(h, ys) == Each(PutValue, Map(g, xs) + Map(j, ys))
  {
    EachIsMap(f, g, xs);
    EachIsMap(h, j, ys);
    EachConcat(PutValue, Map(g, xs), Map(j, ys));
  }

  lemma ChannelsAreCarried(request: Request, cs: seq<Channel>, ms: seq<Message>)
    ensures ObserveResult(request, Channels(cs, ms)) ==
            ChannelSweep(request, cs) + Each(PutValue, Map(AsChannel(), cs) + Map(AsMessage(), ms))
  {
    PutsAreCarried(PutChannel, AsChannel(), cs, PutMessage, AsMessage(), ms);
    var a, b, c := ChannelSweep(request, cs), Each(PutChannel, cs), Each(PutMessage, ms);
    assert a + b + c == a + (b + c);
  }

  lemma MembersAreCarried(request: Request, ms: seq<Member>, us: seq<User>, scope: nat)
    requires scope == if request.GetMembers? then request.community else 0
    ensures ObserveResult(request, Members(ms, us)) ==
            MemberSweep(request, ms, us) + Each(PutValue, Map(AsUser(), us) + Map(AsMemberOf(scope), ms))
  {
    ScopesAreFilledIn(scope);
    PutsAreCarried(PutUser, AsUser(), us, PutMember(scope), AsMemberOf(scope), ms);
    var a, b, c := MemberSweep(request, ms, us), Each(PutUser, us), Each(PutMember(scope), ms);
    assert a + b + c == a + (b + c);
  }

  lemma RolesAreCarried(request: Request, rs: seq<Role>, scope: nat)
    requires scope == if request.GetRoles? then request.community else 0
    ensures ObserveResult(request, CommunityRoles(rs)) ==
            [DeleteWhere(OfKindIn(ROLE, scope))] + Each(PutValue, Map(AsRoleOf(scope), rs))
  {
    ScopesAreFilledIn(scope);
    EachIsMap(PutRole(scope), AsRoleOf(scope), rs);
  }

  lemma ListsAreSweepThenCarried(request: Request, result: Result)
    requires result.Communities? || result.Channels? || result.Members? || result.CommunityRoles?
    ensures ObserveResult(request, result) ==
            Sweep(request, result) + Each(PutValue, CarriedByResult(request, result)) + Withdrawal(result)
  {
    match result
    case Communities(cs, _) => EachIsMap(PutCommunity, AsCommunity(), cs);
    case Channels(cs, ms) => ChannelsAreCarried(request, cs, ms);
    case Members(ms, us) => MembersAreCarried(request, ms, us, if request.GetMembers? then request.community else 0);
    case CommunityRoles(rs) => RolesAreCarried(request, rs, if request.GetRoles? then request.community else 0);
  }

  lemma MessagesAreCarried(us: seq<User>, members: seq<Member>, ms: seq<Message>)
    ensures Each(PutUser, us) + Each(PutMember(0), members) + Each(PutMessage, ms) ==
            Each(PutValue, Map(AsUser(), us) + Map(AsMemberOf(0), members) + Map(AsMessage(), ms))
  {
    ScopesAreFilledIn(0);
    EachIsMap(PutUser, AsUser(), us);
    EachIsMap(PutMember(0), AsMemberOf(0), members);
    EachIsMap(PutMessage, AsMessage(), ms);
    PutTriple(Map(AsUser(), us), Map(AsMemberOf(0), members), Map(AsMessage(), ms));
  }

  lemma ChatsAreCarried(us: seq<User>, cs: seq<Channel>, ms: seq<Message>)
    ensures Each(PutUser, us) + Each(PutChannel, cs) + Each(PutMessage, ms) ==
            Each(PutValue, Map(AsUser(), us) + Map(AsChannel(), cs) + Map(AsMessage(), ms))
  {
    EachIsMap(PutUser, AsUser(), us);
    EachIsMap(PutChannel, AsChannel(), cs);
    EachIsMap(PutMessage, AsMessage(), ms);
    PutTriple(Map(AsUser(), us), Map(AsChannel(), cs), Map(AsMessage(), ms));
  }

  lemma ResultIsCarried(request: Request, result: Result)
    requires !(result.Communities? || result.Channels? || result.Members? || result.CommunityRoles?)
    ensures ObserveResult(request, result) == Each(PutValue, CarriedByResult(request, result))
  {
    match result
    case Messages(us, members, ms) => MessagesAreCarried(us, members, ms);
    case Chat(us, c, m) => ChatIsCarried(us, c, m);
    case Chats(us, cs, ms) => ChatsAreCarried(us, cs, ms);
    case ChatMembers(us) => EachIsMap(PutUser, AsUser(), us);
    case UserDetails(u) => OptionalIsListed(PutUser, AsUser(), u);
    case MemberList(entries) => KnownIsCarried(entries);
    case _ =>
  }

  lemma ChatIsCarried(us: seq<User>, c: Option<Channel>, m: Option<Message>)
    ensures ObserveChat(us, c, m) ==
            Each(PutValue, Map(AsUser(), us) + Listed(AsChannel(), c) + Listed(AsMessage(), m))
  {
    EachIsMap(PutUser, AsUser(), us);
    OptionalIsListed(PutChannel, AsChannel(), c);
    OptionalIsListed(PutMessage, AsMessage(), m);
    PutTriple(Map(AsUser(), us), Listed(AsChannel(), c), Listed(AsMessage(), m));
  }

  lemma FateOfSweep(request: Request, result: Result, k: Key, was: Option<Entry<Value>>, enabled: bool, expires: nat,
                    now: nat)
    ensures Fate(Sweep(request, result), k, was, enabled, expires, now) ==
      if MissingFrom(request, result, k) then None else was
  {
    if result.Members? && request.GetMembers? && request.memberIds != [] {
      var hits := (id: nat) => k == EntityKey(MEMBER, request.community, id);
      FateOfRemovals(DeleteMember(request.community), hits, request.memberIds, k, was, enabled, expires, now);
      if k == EntityKey(MEMBER, request.community, k.id) && k.id in request.memberIds { assert hits(k.id); }
    }
  }

  lemma FateOfWithdrawal(result: Result, k: Key, was: Option<Entry<Value>>, enabled: bool, expires: nat, now: nat)
    ensures Fate(Withdrawal(result), k, was, enabled, expires, now) == if Unavailable(result, k) then None else was
  {
    if result.Communities? {
      var hits := (id: nat) => (k.kind == COMMUNITY && k.id == id) || (k.kind != USER && k.scope == id);
      FateOfRemovals(InvalidateCommunity, hits, result.unavailable, k, was, enabled, expires, now);
      if k.kind == COMMUNITY && k.id in result.unavailable { assert hits(k.id); }
      if k.kind != USER && k.scope in result.unavailable { assert hits(k.scope); }
    }
  }

  lemma FateOfSweptList(request: Request, result: Result, k: Key, was: Option<Entry<Value>>, enabled: bool,
                        expires: nat, now: nat)
    ensures Fate(Sweep(request, result) + Each(PutValue, CarriedByResult(request, result)) + Withdrawal(result),
                 k, was, enabled, expires, now)
            == ObservedFate(request, result, k, was, enabled, expires)
  {
    var a, b, c := Sweep(request, result), Each(PutValue, CarriedByResult(request, result)), Withdrawal(result);
    FateConcat(a + b, c, k, was, enabled, expires, now);
    FateConcat(a, b, k, was, enabled, expires, now);
    FateOfSweep(request, result, k, was, enabled, expires, now);
    var swept := Fate(a, k, was, enabled, expires, now);
    FateOfCarried(CarriedByResult(request, result), k, swept, enabled, expires, now);
    FateOfWithdrawal(result, k, Fate(b, k, swept, enabled, expires, now), enabled, expires, now);
  }

  /** What observing a read makes of each key. */
  lemma ObserveResultFate(request: Request, result: Result, k: Key, was: Option<Entry<Value>>, enabled: bool,
                          expires: nat, now: nat)
    ensures Fate(ObserveResult(request, result), k, was, enabled, expires, now) ==
            ObservedFate(request, result, k, was, enabled, expires)
  {
    if result.Communities? || result.Channels? || result.Members? || result.CommunityRoles? {
      ListsAreSweepThenCarried(request, result);
    } else {
      ResultIsCarried(request, result);
      var carried := Each(PutValue, CarriedByResult(request, result));
      assert [] + carried + [] == carried;
    }
    FateOfSweptList(request, result, k, was, enabled, expires, now);
  }

  // ---------- Updates ----------

  function CarriedByUpdate(update: Update): seq<Value> {
    match update
    case MessageCreated(author, message) => Listed(AsUser(), author) + Listed(AsMessage(), message)
    case MessageUpdated(message) => Listed(AsMessage(), message)
    case ChannelUpdated(channel) => Listed(AsChannel(), channel)
    case UserUpdated(_, user) => Listed(AsUser(), user)
    case CommunityUpdated(_, community) => Listed(AsCommunity(), community)
    case MemberCreated(community, _, member, user) => Listed(AsUser(), user) + Listed(AsMemberOf(community), member)
    case MemberUpdated(community, _, member) => Listed(AsMemberOf(community), member)
    case MemberListUpdated(entries) => Known(entries)
    case ChatUpdated(us, c, m) => Map(AsUser(), us) + Listed(AsChannel(), c) + Listed(AsMessage(), m)
    case GroupUpdated(us) => Map(AsUser(), us)
    case _ => []
  }

  /** The update declares k gone, or no longer known. */
  ghost predicate GoneBy(update: Update, k: Key) {
    match update
    case MessageDeleted(chat, ids) => k == MessageKey(ChatRefFromProto(chat), k.id) && k.id in ids
    case ChannelDeleted(community, channel) =>
      || k == EntityKey(CHANNEL, community, channel)
      || IsChannelMessage(k, community, channel)
    case UserUpdated(id, user) => user.None? && k == EntityKey(USER, 0, id)
    case CommunityUpdated(id, community) =>
      || (k.kind == ROLE && k.scope == id)
      || (community.None? && k == EntityKey(COMMUNITY, 0, id))
    case CommunityDeleted(id) => (k.kind == COMMUNITY && k.id == id) || (k.kind != USER && k.scope == id)
    case CommunityUnavailable(id) => (k.kind == COMMUNITY && k.id == id) || (k.kind != USER && k.scope == id)
    case MemberUpdated(community, id, member) => member.None? && k == EntityKey(MEMBER, community, id)
    case MemberDeleted(community, id) => k == EntityKey(MEMBER, community, id)
    case _ => false
  }

  /** The last status given to the user filed under k. */
  function LastStatus(statuses: seq<Status>, k: Key): Option<Option<nat>> {
    if statuses == [] then None
    else if k == EntityKey(USER, 0, statuses[|statuses| - 1].userId) then Some(statuses[|statuses| - 1].status)
    else LastStatus(statuses[..|statuses| - 1], k)
  }

  /** The user with the given status and else as it was; no other entity has one. */
  function Restated(v: Value, status: Option<nat>): Value {
    match v
    case UserV(User(id, _, rest)) => UserV(User(id, status, rest))
    case _ => v
  }

  function StatusesOf(update: Update): seq<Status> {
    if update.UserStatus? then [update.status] else if update.UserStatusBatch? then update.statuses else []
  }

  predicate CreatesBlankMember(update: Update, k: Key) {
    update.MemberCreated? && update.member.None? && k == EntityKey(MEMBER, update.communityId, update.memberId)
  }

  ghost function AppliedFate(update: Update, k: Key, was: Option<Entry<Value>>, enabled: bool, expires: nat, now: nat)
    : Option<Entry<Value>>
  {
    var carried := LastFor(CarriedByUpdate(update), k);
    var status := LastStatus(StatusesOf(update), k);
    if carried.Some? && k.id != 0 && enabled then Some(Entry(k, carried.value, false, expires))
    else if GoneBy(update, k) then None
    else if status.Some? && was.Some? then
      if was.value.Live(now) then Some(Entry(k, Restated(was.value.value, status.value), was.value.partial, expires))
      else None
    else if CreatesBlankMember(update, k) && k.id != 0 && enabled
            && !(was.Some? && !was.value.partial && was.value.Live(now)) then
      Some(Entry(k, MemberV(Member(k.id, k.scope, [], None)), true, expires))
    else was
  }

  lemma {:induction false} FateOfStatuses(ss: seq<Status>, k: Key, was: Option<Entry<Value>>, enabled: bool,
        expires: nat, now: nat)
    requires now < expires
    ensures Fate(Each(UpdateStatus, ss), k, was, enabled, expires, now) ==
      var status := LastStatus(ss, k);
      if status.None? || was.None? then was
      else if was.value.Live(now) then
        Some(Entry(k, Restated(was.value.value, status.value), was.value.partial, expires))
      else None
    decreases |ss|
  {
    if ss != [] {
      var front, last := ss[..|ss| - 1], ss[|ss| - 1];
      FateOfStatuses(front, k, was, enabled, expires, now);
      EachSnoc(UpdateStatus, ss, |ss| - 1);
      assert ss[..|ss|] == ss;
      FateConcat(Each(UpdateStatus, front), UpdateStatus(last), k, was, enabled, expires, now);
      var before := Fate(Each(UpdateStatus, front), k, was, enabled, expires, now);
      FateOne(UpdateStatus(last)[0], k, before, enabled, expires, now);
    }
  }

  predicate OnlyCarries(update: Update) {
    || update.MessageCreated? || update.MessageUpdated? || update.ChannelUpdated?
    || (update.UserUpdated? && update.user.Some?) || (update.MemberUpdated? && update.member.Some?)
    || update.MemberListUpdated? || update.ChatUpdated? || update.GroupUpdated?
  }

  lemma CreationIsCarried(author: Option<User>, message: Option<Message>)
    ensures Optional(PutUser, author) + Optional(PutMessage, message) ==
            Each(PutValue, Listed(AsUser(), author) + Listed(AsMessage(), message))
  {
    OptionalIsListed(PutUser, AsUser(), author);
    OptionalIsListed(PutMessage, AsMessage(), message);
    EachConcat(PutValue, Listed(AsUser(), author), Listed(AsMessage(), message));
  }

  lemma UpdateIsCarried(update: Update)
    requires OnlyCarries(update)
    ensures ApplyUpdate(update) == Each(PutValue, CarriedByUpdate(update))
  {
    match update
    case MessageCreated(author, message) => CreationIsCarried(author, message);
    case MessageUpdated(message) => OptionalIsListed(PutMessage, AsMessage(), message);
    case ChannelUpdated(channel) => OptionalIsListed(PutChannel, AsChannel(), channel);
    case UserUpdated(_, user) => OptionalIsListed(PutUser, AsUser(), user);
    case MemberUpdated(community, _, member) =>
      ScopesAreFilledIn(community);
      OptionalIsListed(PutMember(community), AsMemberOf(community), member);
    case MemberListUpdated(entries) => KnownIsCarried(entries);
    case ChatUpdated(us, c, m) => ChatIsCarried(us, c, m);
    case GroupUpdated(us) => EachIsMap(PutUser, AsUser(), us);
  }

  lemma RemovalUpdateFate(update: Update, k: Key, was: Option<Entry<Value>>, enabled: bool, expires: nat, now: nat)
    requires CarriedByUpdate(update) == [] && StatusesOf(update) == [] && !update.MemberCreated? && !OnlyCarries(update)
    requires !update.CommunityUpdated?
    ensures Fate(ApplyUpdate(update), k, was, enabled, expires, now) == if GoneBy(update, k) then None else was
  {
    match update
    case MessageDeleted(chat, ids) =>
      var hits := (id: nat) => k == MessageKey(ChatRefFromProto(chat), id);
      FateOfRemovals(DeleteMessageIn(chat), hits, ids, k, was, enabled, expires, now);
      if GoneBy(update, k) { assert hits(k.id); }
    case ChannelDeleted(community, channel) =>
      FateTwo(Delete(EntityKey(CHANNEL, community, channel)), DeleteWhere(MessagesOf(community, channel)),
              k, was, enabled, expires, now);
    case _ =>
  }

  lemma CarryingUpdateFate(update: Update, k: Key, was: Option<Entry<Value>>, enabled: bool, expires: nat, now: nat)
    requires OnlyCarries(update)
    ensures Fate(ApplyUpdate(update), k, was, enabled, expires, now) ==
            AppliedFate(update, k, was, enabled, expires, now)
  {
    UpdateIsCarried(update);
    FateOfCarried(CarriedByUpdate(update), k, was, enabled, expires, now);
  }

  lemma StatusUpdateFate(update: Update, k: Key, was: Option<Entry<Value>>, enabled: bool, expires: nat, now: nat)
    requires (update.UserStatus? || update.UserStatusBatch?) && now < expires
    ensures Fate(ApplyUpdate(update), k, was, enabled, expires, now) ==
            AppliedFate(update, k, was, enabled, expires, now)
  {
    FateOfStatuses(StatusesOf(update), k, was, enabled, expires, now);
    if update.UserStatus? {
      assert Each(UpdateStatus, [update.status]) == UpdateStatus(update.status) + Each(UpdateStatus, []);
    }
  }

  /** What an update makes of each key. */
  lemma ApplyUpdateFate(update: Update, k: Key, was: Option<Entry<Value>>, enabled: bool, expires: nat, now: nat)
    requires now < expires
    ensures Fate(ApplyUpdate(update), k, was, enabled, expires, now) ==
            AppliedFate(update, k, was, enabled, expires, now)
  {
    if OnlyCarries(update) {
      CarryingUpdateFate(update, k, was, enabled, expires, now);
    } else if update.CommunityUpdated? {
      CommunityUpdateFate(update, k, was, enabled, expires, now);
    } else if update.MemberCreated? {
      MemberCreatedFate(update, k, was, enabled, expires, now);
    } else if update.UserStatus? || update.UserStatusBatch? {
      StatusUpdateFate(update, k, was, enabled, expires, now);
    } else if StatusesOf(update) == [] {
      RemovalUpdateFate(update, k, was, enabled, expires, now);
    }
  }

  lemma CommunityUpdateFate(update: Update, k: Key, was: Option<Entry<Value>>, enabled: bool, expires: nat, now: nat)
    requires update.CommunityUpdated?
    ensures Fate(ApplyUpdate(update), k, was, enabled, expires, now) ==
            AppliedFate(update, k, was, enabled, expires, now)
  {
    var sweep := DeleteWhere(OfKindIn(ROLE, update.communityId));
    var rest := if update.community.Some? then PutCommunity(update.community.value)
                else [Delete(EntityKey(COMMUNITY, 0, update.communityId))];
    FateConcat([sweep], rest, k, was, enabled, expires, now);
    FateOne(sweep, k, was, enabled, expires, now);
    var swept := FateStep(sweep, k, was, enabled, expires, now);
    if update.community.Some? {
      OptionalIsListed(PutCommunity, AsCommunity(), update.community);
      FateOfCarried(CarriedByUpdate(update), k, swept, enabled, expires, now);
    } else {
      FateOne(rest[0], k, swept, enabled, expires, now);
    }
  }

  lemma MemberCreatedFate(update: Update, k: Key, was: Option<Entry<Value>>, enabled: bool, expires: nat, now: nat)
    requires update.MemberCreated?
    ensures Fate(ApplyUpdate(update), k, was, enabled, expires, now) ==
            AppliedFate(update, k, was, enabled, expires, now)
  {
    var us := Listed(AsUser(), update.user);
    OptionalIsListed(PutUser, AsUser(), update.user);
    if update.member.Some? {
      var ms := Listed(AsMemberOf(update.communityId), update.member);
      ScopesAreFilledIn(update.communityId);
      OptionalIsListed(PutMember(update.communityId), AsMemberOf(update.communityId), update.member);
      EachConcat(PutValue, us, ms);
      FateOfCarried(us + ms, k, was, enabled, expires, now);
    } else {
      BlankMemberFate(update, k, was, enabled, expires, now);
    }
  }

  lemma BlankMemberFate(update: Update, k: Key, was: Option<Entry<Value>>, enabled: bool, expires: nat, now: nat)
    requires update.MemberCreated? && update.member.None?
    ensures Fate(ApplyUpdate(update), k, was, enabled, expires, now) ==
            AppliedFate(update, k, was, enabled, expires, now)
  {
    var community, id, us := update.communityId, update.memberId, Listed(AsUser(), update.user);
    var blank := Put(EntityKey(MEMBER, community, id), MemberV(Member(id, community, [], None)), true);
    OptionalIsListed(PutUser, AsUser(), update.user);
    FateOfCarried(us, k, was, enabled, expires, now);
    FateConcat(Each(PutValue, us), [blank], k, was, enabled, expires, now);
    FateOne(blank, k, Fate(Each(PutValue, us), k, was, enabled, expires, now), enabled, expires, now);
    assert CarriedByUpdate(update) == us;
  }
}
