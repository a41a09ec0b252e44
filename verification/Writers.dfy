/** The transforms that observe results, updates and mutations, as the writer performs them under the
    cache's lock: entity by entity, with the cache's own reads, puts and deletes. Each refines its program. */
module Writers {
  import opened Wrappers
  import opened EntityKeys
  import opened Recency
  import opened CacheModel
  import opened CacheTheorems
  import opened CacheStore
  import opened Projection
  import opened ProjectionTheorems

  type Model = State<Value>
  type Writer = Cache<Value>

  function InScope(v: Value, scope: nat): Value {
    match v
    case MemberV(m) => MemberIn(scope)(m)
    case RoleV(r) => RoleIn(scope)(r)
    case _ => v
  }

  function AsMember(): Member -> Value { (m: Member) => MemberV(m) }
  function AsRole(): Role -> Value { (r: Role) => RoleV(r) }

  lemma ExecOne(s: Model, op: Op<Value>, now: nat)
    requires s.Shape()
    ensures Exec(s, [op], now) == Apply(s, op, now)
  {
  }

  lemma ExecThree(s: Model, a: Program, b: Program, c: Program, now: nat)
    requires s.Shape()
    ensures Exec(s, a + b + c, now) == Exec(Exec(Exec(s, a, now), b, now), c, now)
  {
    ExecConcat(s, a + b, c, now);
    ExecConcat(s, a, b, now);
  }

  /** Sweeps that select the same keys do the same. */
  lemma SweepsAgree(s: Model, f: Key -> bool, g: Key -> bool, now: nat)
    requires s.Shape() && forall k :: f(k) == g(k)
    ensures Apply(s, Op.DeleteWhere(f), now) == Apply(s, Op.DeleteWhere(g), now)
  {
    var none: Entry<Value> -> bool := (e: Entry<Value>) => false;
    var p: Entry<Value> -> bool, q: Entry<Value> -> bool := Matching(f), Matching(g);
    forall kind: Kind | kind < KINDS ensures Sift(s.lists[kind], p) == Sift(s.lists[kind], q) {
      forall e ensures q(e) <==> none(e) || p(e) { assert f(e.key) == g(e.key); }
      SiftTwice(s.lists[kind], none, p, q);
      SiftNothing(s.lists[kind], none);
    }
    assert SiftAll(s, p).lists == SiftAll(s, q).lists;
  }

  // ---------- Entities ----------

  /** putUser, putCommunity, putChannel, putMember, putRole and putMessage, by the kind of entity. */
  method Store(w: Writer, v: Value, scope: nat, now: nat)
    requires w.Valid()
    modifies w
    ensures w.Valid() && w.Model() == Exec(old(w.Model()), PutValue(InScope(v, scope)), now)
  {
    match v
    case UserV(u) => w.Put(EntityKey(USER, 0, u.id), v, false, now);
    case CommunityV(c) => w.Put(EntityKey(COMMUNITY, 0, c.id), v, false, now);
    case ChannelV(c) =>
      if c.communityId != 0 {
        w.Put(EntityKey(CHANNEL, c.communityId, c.id), v, false, now);
      }
    case MemberV(m) =>
      var member := m;
      if member.communityId == 0 {
        member := member.(communityId := scope);
      }
      if member.communityId != 0 {
        w.Put(EntityKey(MEMBER, member.communityId, member.id), MemberV(member), false, now);
      }
    case RoleV(r) =>
      var role := r;
      if role.communityId == 0 {
        role := role.(communityId := scope);
      }
      if role.communityId != 0 {
        w.Put(EntityKey(ROLE, role.communityId, role.id), RoleV(role), false, now);
      }
    case MessageV(m) =>
      var chat := ChatRefFromProto(m.chatRef);
      if chat.Valid() {
        w.Put(MessageKey(chat, m.id), v, false, now);
      }
  }

  method StoreEach<T(!new)>(w: Writer, xs: seq<T>, wrap: T -> Value, scope: nat, ghost f: T -> Program, now: nat)
    requires w.Valid() && forall x :: x in xs ==> f(x) == PutValue(InScope(wrap(x), scope))
    modifies w
    ensures w.Valid() && w.Model() == Exec(old(w.Model()), Each(f, xs), now)
  {
    ghost var s := w.Model();
    for i := 0 to |xs|
      invariant w.Valid() && w.Model() == Exec(s, Each(f, xs[..i]), now)
    {
      EachSnoc(f, xs, i);
      ExecConcat(s, Each(f, xs[..i]), f(xs[i]), now);
      Store(w, wrap(xs[i]), scope, now);
    }
    assert xs[..|xs|] == xs;
  }

  method StoreMaybe<T(!new)>(w: Writer, x: Option<T>, wrap: T -> Value, scope: nat, ghost f: T -> Program, now: nat)
    requires w.Valid() && (x.Some? ==> f(x.value) == PutValue(InScope(wrap(x.value), scope)))
    modifies w
    ensures w.Valid() && w.Model() == Exec(old(w.Model()), Optional(f, x), now)
  {
    if x.Some? {
      Store(w, wrap(x.value), scope, now);
    }
  }

  method StoreEntries(w: Writer, entries: seq<Option<User>>, now: nat)
    requires w.Valid()
    modifies w
    ensures w.Valid() && w.Model() == Exec(old(w.Model()), Each(PutEntry, entries), now)
  {
    ghost var s := w.Model();
    for i := 0 to |entries|
      invariant w.Valid() && w.Model() == Exec(s, Each(PutEntry, entries[..i]), now)
    {
      EachSnoc(PutEntry, entries, i);
      ExecConcat(s, Each(PutEntry, entries[..i]), PutEntry(entries[i]), now);
      StoreMaybe(w, entries[i], AsUser(), 0, PutUser, now);
    }
    assert entries[..|entries|] == entries;
  }

  // ---------- Removals ----------

  method Evict(w: Writer, k: Key, now: nat)
    requires w.Valid()
    modifies w
    ensures w.Valid() && w.Model() == Exec(old(w.Model()), [Op.Delete(k)], now)
  {
    ExecOne(w.Model(), Op.Delete(k), now);
    w.Delete(k);
  }

  method EvictEach(w: Writer, ids: seq<nat>, keyOf: nat -> Key, ghost f: nat -> Program, now: nat)
    requires w.Valid() && forall id :: f(id) == [Op.Delete(keyOf(id))]
    modifies w
    ensures w.Valid() && w.Model() == Exec(old(w.Model()), Each(f, ids), now)
  {
    ghost var s := w.Model();
    for i := 0 to |ids|
      invariant w.Valid() && w.Model() == Exec(s, Each(f, ids[..i]), now)
    {
      EachSnoc(f, ids, i);
      ExecConcat(s, Each(f, ids[..i]), f(ids[i]), now);
      Evict(w, keyOf(ids[i]), now);
    }
    assert ids[..|ids|] == ids;
  }

  method Sweep(w: Writer, matches: Key -> bool, ghost selected: Key -> bool, now: nat)
    requires w.Valid() && forall k :: matches(k) == selected(k)
    modifies w
    ensures w.Valid() && w.Model() == Exec(old(w.Model()), [Op.DeleteWhere(selected)], now)
  {
    SweepsAgree(w.Model(), matches, selected, 0);
    ExecOne(w.Model(), Op.DeleteWhere(selected), now);
    w.DeleteWhere(matches);
  }

  method DropCommunity(w: Writer, id: nat, now: nat)
    requires w.Valid()
    modifies w
    ensures w.Valid() && w.Model() == Exec(old(w.Model()), InvalidateCommunity(id), now)
  {
    Sweep(w, (k: Key) => (k.kind == COMMUNITY && k.id == id) || (k.scope == id && k.kind != USER),
          OfCommunity(id), now);
  }

  method DropCommunities(w: Writer, ids: seq<nat>, now: nat)
    requires w.Valid()
    modifies w
    ensures w.Valid() && w.Model() == Exec(old(w.Model()), Each(InvalidateCommunity, ids), now)
  {
    ghost var s := w.Model();
    for i := 0 to |ids|
      invariant w.Valid() && w.Model() == Exec(s, Each(InvalidateCommunity, ids[..i]), now)
    {
      EachSnoc(InvalidateCommunity, ids, i);
      ExecConcat(s, Each(InvalidateCommunity, ids[..i]), InvalidateCommunity(ids[i]), now);
      DropCommunity(w, ids[i], now);
    }
    assert ids[..|ids|] == ids;
  }

  method DropChannel(w: Writer, community: nat, channel: nat, now: nat)
    requires w.Valid()
    modifies w
    ensures w.Valid() && w.Model() == Exec(old(w.Model()), InvalidateChannel(community, channel), now)
  {
    var k := Key(CHANNEL, community, 0, channel, 0);
    ghost var a: Program, b: Program := [Op.Delete(k)], [Op.DeleteWhere(MessagesOf(community, channel))];
    ExecConcat(w.Model(), a, b, now);
    assert InvalidateChannel(community, channel) == a + b;
    Evict(w, k, now);
    Sweep(w, (j: Key) => j.kind == MESSAGE && j.chat == 1 && j.scope == community && j.parent == channel,
          MessagesOf(community, channel), now);
  }

  method DropRole(w: Writer, community: nat, id: nat, now: nat)
    requires w.Valid()
    modifies w
    ensures w.Valid() && w.Model() == Exec(old(w.Model()), ObserveMutation(DeleteRole(community, id), Void), now)
  {
    ghost var a: Program := [Op.Delete(EntityKey(ROLE, community, id))];
    ghost var b: Program := [Op.DeleteWhere(OfKindIn(MEMBER, community))];
    assert ObserveMutation(DeleteRole(community, id), Void) == a + b;
    ExecConcat(w.Model(), a, b, now);
    Evict(w, EntityKey(ROLE, community, id), now);
    Sweep(w, (k: Key) => k.kind == MEMBER && k.scope == community, OfKindIn(MEMBER, community), now);
  }

  // ---------- Edits in place: read, change a clone, put it back ----------

  lemma EditIs(s: Model, k: Key, edit: Value -> Value, now: nat)
    requires s.Valid()
    ensures Exec(s, [Op.Edit(k, edit)], now).Valid()
    ensures Exec(s, [Op.Edit(k, edit)], now) ==
      match s.Lookup(k)
      case None => s
      case Some(e) => if e.Live(now) then Apply(s, Op.Put(k, edit(e.value), e.partial), now) else Drop(s, k)
  {
    ExecValid(s, [Op.Edit(k, edit)], now);
  }

  method SetUserStatus(w: Writer, status: Status, now: nat)
    requires w.Valid()
    modifies w
    ensures w.Valid() && w.Model() == Exec(old(w.Model()), UpdateStatus(status), now)
  {
    var k := EntityKey(USER, 0, status.userId);
    EditIs(w.Model(), k, SetStatus(status.status), now);
    var e := w.Read(k, now);
    if e.Some? {
      var v := e.value.value;
      if v.UserV? {
        v := UserV(v.user.(status := status.status));
      }
      w.Put(k, v, e.value.partial, now);
    }
  }

  method SetUserStatuses(w: Writer, statuses: seq<Status>, now: nat)
    requires w.Valid()
    modifies w
    ensures w.Valid() && w.Model() == Exec(old(w.Model()), Each(UpdateStatus, statuses), now)
  {
    ghost var s := w.Model();
    for i := 0 to |statuses|
      invariant w.Valid() && w.Model() == Exec(s, Each(UpdateStatus, statuses[..i]), now)
    {
      EachSnoc(UpdateStatus, statuses, i);
      ExecConcat(s, Each(UpdateStatus, statuses[..i]), UpdateStatus(statuses[i]), now);
      SetUserStatus(w, statuses[i], now);
    }
    assert statuses[..|statuses|] == statuses;
  }

  method AmendCommunity(w: Writer, id: nat, name: Option<string>, username: Option<string>, now: nat)
    requires w.Valid()
    modifies w
    ensures w.Valid()
    ensures w.Model() ==
      Exec(old(w.Model()), [Op.Edit(EntityKey(COMMUNITY, 0, id), EditedCommunity(name, username))], now)
  {
    var k := EntityKey(COMMUNITY, 0, id);
    EditIs(w.Model(), k, EditedCommunity(name, username), now);
    var e := w.Read(k, now);
    if e.Some? {
      var v := e.value.value;
      if v.CommunityV? && name.Some? {
        v := CommunityV(v.community.(name := name.value));
      }
      if v.CommunityV? && username.Some? {
        v := CommunityV(v.community.(username := username));
      }
      w.Put(k, v, e.value.partial, now);
    }
  }

  method AmendMember(w: Writer, community: nat, id: nat, nickname: Option<string>, roleIds: Option<seq<nat>>, now: nat)
    requires w.Valid()
    modifies w
    ensures w.Valid()
    ensures w.Model() ==
      Exec(old(w.Model()), [Op.Edit(EntityKey(MEMBER, community, id), EditedMember(nickname, roleIds))], now)
  {
    var k := EntityKey(MEMBER, community, id);
    EditIs(w.Model(), k, EditedMember(nickname, roleIds), now);
    var e := w.Read(k, now);
    if e.Some? {
      var v := e.value.value;
      if v.MemberV? && nickname.Some? {
        v := MemberV(v.member.(nickname := nickname));
      }
      if v.MemberV? && roleIds.Some? {
        v := MemberV(v.member.(roleIds := roleIds.value));
      }
      w.Put(k, v, e.value.partial, now);
    }
  }

  method PinMessage(w: Writer, chat: Option<ProtoChatRef>, id: nat, pin: bool, now: nat)
    requires w.Valid()
    modifies w
    ensures w.Valid()
    ensures w.Model() == Exec(old(w.Model()), [Op.Edit(MessageKey(ChatRefFromProto(chat), id), Pinned(pin))], now)
  {
    var k := MessageKey(ChatRefFromProto(chat), id);
    EditIs(w.Model(), k, Pinned(pin), now);
    var e := w.Read(k, now);
    if e.Some? {
      var v := e.value.value;
      if v.MessageV? {
        v := MessageV(v.message.(pinned := Some(pin)));
      }
      w.Put(k, v, e.value.partial, now);
    }
  }

  // ---------- Results ----------

  method ObserveCommunities(w: Writer, cs: seq<Community>, unavailable: seq<nat>, now: nat)
    requires w.Valid()
    modifies w
    ensures w.Valid()
    ensures w.Model() == Exec(old(w.Model()), ObserveResult(GetCommunities, Communities(cs, unavailable)), now)
  {
    var visible := CommunityIds(cs);
    ghost var sweep: Program := [Op.DeleteWhere(OutsideCommunities(visible))];
    ExecThree(w.Model(), sweep, Each(PutCommunity, cs), Each(InvalidateCommunity, unavailable), now);
    Sweep(w, (k: Key) => (k.kind == COMMUNITY && k.id !in visible) || (k.scope != 0 && k.scope !in visible),
          OutsideCommunities(visible), now);
    StoreEach(w, cs, AsCommunity(), 0, PutCommunity, now);
    DropCommunities(w, unavailable, now);
  }

  method ObserveChannels(w: Writer, request: Request, cs: seq<Channel>, ms: seq<Message>, now: nat)
    requires w.Valid()
    modifies w
    ensures w.Valid()
    ensures w.Model() == Exec(old(w.Model()), ObserveResult(request, Channels(cs, ms)), now)
  {
    ExecThree(w.Model(), ChannelSweep(request, cs), Each(PutChannel, cs), Each(PutMessage, ms), now);
    if request.GetChannels? {
      var community, visible := request.community, ChannelIds(cs);
      Sweep(w, (k: Key) => k.scope == community &&
              ((k.kind == CHANNEL && k.id !in visible) || (k.kind == MESSAGE && k.parent !in visible)),
            OutsideChannels(community, visible), now);
    }
    StoreEach(w, cs, AsChannel(), 0, PutChannel, now);
    StoreEach(w, ms, AsMessage(), 0, PutMessage, now);
  }

  method SweepMembers(w: Writer, request: Request, ms: seq<Member>, us: seq<User>, now: nat)
    requires w.Valid()
    modifies w
    ensures w.Valid() && w.Model() == Exec(old(w.Model()), MemberSweep(request, ms, us), now)
  {
    if request.GetMembers? {
      var community := request.community;
      if |request.memberIds| != 0 {
        EvictEach(w, request.memberIds, (id: nat) => EntityKey(MEMBER, community, id), DeleteMember(community), now);
      } else if |ms| != 0 || |us| == 0 {
        Sweep(w, (k: Key) => k.kind == MEMBER && k.scope == community, OfKindIn(MEMBER, community), now);
      }
    }
  }

  method ObserveMembers(w: Writer, request: Request, ms: seq<Member>, us: seq<User>, now: nat)
    requires w.Valid()
    modifies w
    ensures w.Valid()
    ensures w.Model() == Exec(old(w.Model()), ObserveResult(request, Members(ms, us)), now)
  {
    var scope := 0;
    if request.GetMembers? {
      scope := request.community;
    }
    ghost var sweep := MemberSweep(request, ms, us);
    assert ObserveResult(request, Members(ms, us)) == sweep + Each(PutUser, us) + Each(PutMember(scope), ms);
    ExecThree(w.Model(), sweep, Each(PutUser, us), Each(PutMember(scope), ms), now);
    SweepMembers(w, request, ms, us, now);
    StoreEach(w, us, AsUser(), 0, PutUser, now);
    StoreEach(w, ms, AsMember(), scope, PutMember(scope), now);
  }

  method ObserveRoles(w: Writer, request: Request, rs: seq<Role>, now: nat)
    requires w.Valid()
    modifies w
    ensures w.Valid()
    ensures w.Model() == Exec(old(w.Model()), ObserveResult(request, CommunityRoles(rs)), now)
  {
    var scope := 0;
    if request.GetRoles? {
      scope := request.community;
    }
    ghost var sweep: Program := [Op.DeleteWhere(OfKindIn(ROLE, scope))];
    assert ObserveResult(request, CommunityRoles(rs)) == sweep + Each(PutRole(scope), rs);
    ExecConcat(w.Model(), sweep, Each(PutRole(scope), rs), now);
    Sweep(w, (k: Key) => k.kind == ROLE && k.scope == scope, OfKindIn(ROLE, scope), now);
    StoreEach(w, rs, AsRole(), scope, PutRole(scope), now);
  }

  method StoreChat(w: Writer, us: seq<User>, channel: Option<Channel>, message: Option<Message>, now: nat)
    requires w.Valid()
    modifies w
    ensures w.Valid() && w.Model() == Exec(old(w.Model()), ObserveChat(us, channel, message), now)
  {
    ExecThree(w.Model(), Each(PutUser, us), Optional(PutChannel, channel), Optional(PutMessage, message), now);
    StoreEach(w, us, AsUser(), 0, PutUser, now);
    StoreMaybe(w, channel, AsChannel(), 0, PutChannel, now);
    StoreMaybe(w, message, AsMessage(), 0, PutMessage, now);
  }

  method StoreMessages(w: Writer, us: seq<User>, members: seq<Member>, ms: seq<Message>, now: nat)
    requires w.Valid()
    modifies w
    ensures w.Valid()
    ensures w.Model() ==
      Exec(old(w.Model()), Each(PutUser, us) + Each(PutMember(0), members) + Each(PutMessage, ms), now)
  {
    ExecThree(w.Model(), Each(PutUser, us), Each(PutMember(0), members), Each(PutMessage, ms), now);
    StoreEach(w, us, AsUser(), 0, PutUser, now);
    StoreEach(w, members, AsMember(), 0, PutMember(0), now);
    StoreEach(w, ms, AsMessage(), 0, PutMessage, now);
  }

  method StoreChats(w: Writer, us: seq<User>, cs: seq<Channel>, ms: seq<Message>, now: nat)
    requires w.Valid()
    modifies w
    ensures w.Valid()
    ensures w.Model() == Exec(old(w.Model()), Each(PutUser, us) + Each(PutChannel, cs) + Each(PutMessage, ms), now)
  {
    ExecThree(w.Model(), Each(PutUser, us), Each(PutChannel, cs), Each(PutMessage, ms), now);
    StoreEach(w, us, AsUser(), 0, PutUser, now);
    StoreEach(w, cs, AsChannel(), 0, PutChannel, now);
    StoreEach(w, ms, AsMessage(), 0, PutMessage, now);
  }

  /** The results that only carry entities. */
  method ObserveEntities(w: Writer, request: Request, result: Result, ghost program: Program, now: nat)
    requires w.Valid() && program == ObserveResult(request, result)
    requires !(result.Communities? || result.Channels? || result.Members? || result.CommunityRoles?)
    modifies w
    ensures w.Valid() && w.Model() == Exec(old(w.Model()), program, now)
  {
    match result
    case Messages(us, members, ms) => StoreMessages(w, us, members, ms, now);
    case Chat(us, channel, message) => StoreChat(w, us, channel, message, now);
    case Chats(us, cs, ms) => StoreChats(w, us, cs, ms, now);
    case ChatMembers(us) => StoreEach(w, us, AsUser(), 0, PutUser, now);
    case UserDetails(user) => StoreMaybe(w, user, AsUser(), 0, PutUser, now);
    case MemberList(entries) => StoreEntries(w, entries, now);
    case _ =>
  }

  method Observe(w: Writer, request: Request, result: Result, now: nat)
    requires w.Valid()
    modifies w
    ensures w.Valid() && w.Model() == Exec(old(w.Model()), ObserveResult(request, result), now)
  {
    match result
    case Communities(cs, unavailable) => ObserveCommunities(w, cs, unavailable, now);
    case Channels(cs, ms) => ObserveChannels(w, request, cs, ms, now);
    case Members(ms, us) => ObserveMembers(w, request, ms, us, now);
    case CommunityRoles(rs) => ObserveRoles(w, request, rs, now);
    case _ => ObserveEntities(w, request, result, ObserveResult(request, result), now);
  }

  // ---------- Mutations ----------

  method ObserveAnswer(w: Writer, request: Request, result: Result, now: nat)
    requires w.Valid() && !result.Void?
    modifies w
    ensures w.Valid() && w.Model() == Exec(old(w.Model()), ObserveMutation(request, result), now)
  {
    if request.SendMessage? && result.SentMessage? {
      var key := MessageKey(ChatRefFromProto(request.chat), result.id);
      var message := MessageV(Message(request.chat, result.id, request.text, request.entities, None, 0));
      ExecOne(w.Model(), Op.Put(key, message, true), now);
      w.Put(key, message, true, now);
    }
    if request.RemoveMembers? && result.RemovedMembers? {
      var community := request.community;
      EvictEach(w, result.userIds, (id: nat) => EntityKey(MEMBER, community, id), DeleteMember(community), now);
    }
  }

  predicate OfCommunities(request: Request) {
    || request.DeleteCommunity? || request.LeaveCommunity? || request.DeleteChannel? || request.EditCommunity?
    || request.EditChannel? || request.EditMember? || request.RemoveMembers? || request.EditRole?
    || request.DeleteRole? || request.EditDefaultPermissions?
  }

  method ObserveVoid(w: Writer, request: Request, ghost program: Program, now: nat)
    requires w.Valid() && program == ObserveMutation(request, Void)
    modifies w
    ensures w.Valid() && w.Model() == Exec(old(w.Model()), program, now)
  {
    match request
    case DeleteCommunity(id) =>
      assert program == InvalidateCommunity(id);
      DropCommunity(w, id, now);
    case LeaveCommunity(id) =>
      assert program == InvalidateCommunity(id);
      DropCommunity(w, id, now);
    case DeleteChannel(community, channel) =>
      assert program == InvalidateChannel(community, channel);
      DropChannel(w, community, channel, now);
    case EditCommunity(id, name, username) =>
      assert program == [Op.Edit(EntityKey(COMMUNITY, 0, id), EditedCommunity(name, username))];
      AmendCommunity(w, id, name, username, now);
    case EditChannel(community, channel) =>
      assert program == [Op.Delete(EntityKey(CHANNEL, community, channel))];
      Evict(w, EntityKey(CHANNEL, community, channel), now);
    case EditMember(community, id, nickname, roleIds) =>
      assert program == [Op.Edit(EntityKey(MEMBER, community, id), EditedMember(nickname, roleIds))];
      AmendMember(w, community, id, nickname, roleIds, now);
    case RemoveMembers(community, ids) =>
      assert program == Each(DeleteMember(community), ids);
      EvictEach(w, ids, (id: nat) => EntityKey(MEMBER, community, id), DeleteMember(community), now);
    case EditRole(role) =>
      assert program == PutRole(role.communityId)(role);
      Store(w, RoleV(role), role.communityId, now);
    case DeleteRole(community, id) => DropRole(w, community, id, now);
    case EditDefaultPermissions(id) =>
      assert program == InvalidateCommunity(id);
      DropCommunity(w, id, now);
    case _ => ObserveVoidMessage(w, request, program, now);
  }

  method ObserveVoidMessage(w: Writer, request: Request, ghost program: Program, now: nat)
    requires w.Valid() && !OfCommunities(request) && program == ObserveMutation(request, Void)
    modifies w
    ensures w.Valid() && w.Model() == Exec(old(w.Model()), program, now)
  {
    match request
    case EditMessage(chat, id) => Evict(w, MessageKey(ChatRefFromProto(chat), id), now);
    case DeleteMessage(chat, ids) =>
      EvictEach(w, ids, (id: nat) => MessageKey(ChatRefFromProto(chat), id), DeleteMessageIn(chat), now);
    case SetMessagePin(chat, id, pin) => PinMessage(w, chat, id, pin, now);
    case _ =>
  }

  method Mutated(w: Writer, request: Request, result: Result, now: nat)
    requires w.Valid()
    modifies w
    ensures w.Valid() && w.Model() == Exec(old(w.Model()), ObserveMutation(request, result), now)
  {
    if result.Void? {
      ObserveVoid(w, request, ObserveMutation(request, result), now);
    } else {
      ObserveAnswer(w, request, result, now);
    }
  }

  /** The mutations whose entity a race evicts instead of rewriting it. */
  predicate Rewrites(request: Request) {
    || request.EditCommunity? || request.EditChannel? || request.EditMember? || request.EditRole?
    || request.SetMessagePin?
  }

  method EvictRewritten(w: Writer, request: Request, ghost program: Program, now: nat)
    requires w.Valid() && Rewrites(request) && program == InvalidateMutation(request, Void)
    modifies w
    ensures w.Valid() && w.Model() == Exec(old(w.Model()), program, now)
  {
    match request
    case EditCommunity(id, _, _) => Evict(w, EntityKey(COMMUNITY, 0, id), now);
    case EditChannel(community, channel) => Evict(w, EntityKey(CHANNEL, community, channel), now);
    case EditMember(community, id, _, _) => Evict(w, EntityKey(MEMBER, community, id), now);
    case EditRole(role) => Evict(w, EntityKey(ROLE, role.communityId, role.id), now);
    case SetMessagePin(chat, id, _) => Evict(w, MessageKey(ChatRefFromProto(chat), id), now);
  }

  method Raced(w: Writer, request: Request, result: Result, now: nat)
    requires w.Valid()
    modifies w
    ensures w.Valid() && w.Model() == Exec(old(w.Model()), InvalidateMutation(request, result), now)
  {
    if !result.Void? {
      if request.RemoveMembers? && result.RemovedMembers? {
        Mutated(w, request, result, now);
      }
    } else if Rewrites(request) {
      EvictRewritten(w, request, InvalidateMutation(request, result), now);
    } else {
      assert InvalidateMutation(request, result) == ObserveMutation(request, result);
      Mutated(w, request, result, now);
    }
  }

  // ---------- Updates ----------

  method ApplyCommunity(w: Writer, id: nat, community: Option<Community>, now: nat)
    requires w.Valid()
    modifies w
    ensures w.Valid() && w.Model() == Exec(old(w.Model()), CommunityProgram(id, community), now)
  {
    ghost var rest: Program :=
      if community.None? then [Op.Delete(EntityKey(COMMUNITY, 0, id))] else PutCommunity(community.value);
    ExecConcat(w.Model(), [Op.DeleteWhere(OfKindIn(ROLE, id))], rest, now);
    Sweep(w, (k: Key) => k.kind == ROLE && k.scope == id, OfKindIn(ROLE, id), now);
    if community.None? {
      Evict(w, EntityKey(COMMUNITY, 0, id), now);
    } else {
      Store(w, CommunityV(community.value), 0, now);
    }
  }

  method ApplyNewMember(w: Writer, community: nat, id: nat, member: Option<Member>, user: Option<User>, now: nat)
    requires w.Valid()
    modifies w
    ensures w.Valid() && w.Model() == Exec(old(w.Model()), NewMemberProgram(community, id, member, user), now)
  {
    var k, blank := EntityKey(MEMBER, community, id), MemberV(Member(id, community, [], None));
    ghost var rest: Program :=
      if member.Some? then PutMember(community)(member.value) else [Op.Put(k, blank, true)];
    ExecConcat(w.Model(), Optional(PutUser, user), rest, now);
    StoreMaybe(w, user, AsUser(), 0, PutUser, now);
    if member.Some? {
      Store(w, MemberV(member.value), community, now);
    } else {
      ExecOne(w.Model(), Op.Put(k, blank, true), now);
      w.Put(k, blank, true, now);
    }
  }

  /** An update of a community, or of one of its channels. */
  predicate AboutCommunity(update: Update) {
    || update.ChannelUpdated? || update.ChannelDeleted? || update.CommunityUpdated? || update.CommunityDeleted?
    || update.CommunityUnavailable?
  }

  predicate AboutMember(update: Update) {
    update.MemberCreated? || update.MemberUpdated? || update.MemberDeleted? || update.MemberListUpdated?
  }

  method Handle(w: Writer, update: Update, ghost program: Program, now: nat)
    requires w.Valid() && program == ApplyUpdate(update)
    modifies w
    ensures w.Valid() && w.Model() == Exec(old(w.Model()), program, now)
  {
    if AboutCommunity(update) {
      HandleCommunity(w, update, program, now);
    } else if AboutMember(update) {
      HandleMember(w, update, program, now);
    } else {
      HandleChat(w, update, program, now);
    }
  }

  method HandleChat(w: Writer, update: Update, ghost program: Program, now: nat)
    requires w.Valid() && program == ApplyUpdate(update) && !AboutCommunity(update) && !AboutMember(update)
    modifies w
    ensures w.Valid() && w.Model() == Exec(old(w.Model()), program, now)
  {
    match update
    case MessageCreated(author, message) =>
      assert program == Optional(PutUser, author) + Optional(PutMessage, message);
      ExecConcat(w.Model(), Optional(PutUser, author), Optional(PutMessage, message), now);
      StoreMaybe(w, author, AsUser(), 0, PutUser, now);
      StoreMaybe(w, message, AsMessage(), 0, PutMessage, now);
    case MessageUpdated(message) =>
      assert program == Optional(PutMessage, message);
      StoreMaybe(w, message, AsMessage(), 0, PutMessage, now);
    case MessageDeleted(chat, ids) =>
      assert program == Each(DeleteMessageIn(chat), ids);
      EvictEach(w, ids, (id: nat) => MessageKey(ChatRefFromProto(chat), id), DeleteMessageIn(chat), now);
    case UserUpdated(id, user) =>
      if user.None? {
        assert program == [Op.Delete(EntityKey(USER, 0, id))];
        Evict(w, EntityKey(USER, 0, id), now);
      } else {
        assert program == PutUser(user.value);
        Store(w, UserV(user.value), 0, now);
      }
    case UserStatus(status) =>
      assert program == UpdateStatus(status);
      SetUserStatus(w, status, now);
    case UserStatusBatch(statuses) =>
      assert program == Each(UpdateStatus, statuses);
      SetUserStatuses(w, statuses, now);
    case ChatUpdated(us, channel, message) =>
      assert program == ObserveChat(us, channel, message);
      StoreChat(w, us, channel, message, now);
    case GroupUpdated(us) =>
      assert program == Each(PutUser, us);
      StoreEach(w, us, AsUser(), 0, PutUser, now);
    case OtherUpdate =>
  }

  method HandleCommunity(w: Writer, update: Update, ghost program: Program, now: nat)
    requires w.Valid() && program == ApplyUpdate(update) && AboutCommunity(update)
    modifies w
    ensures w.Valid() && w.Model() == Exec(old(w.Model()), program, now)
  {
    match update
    case ChannelUpdated(channel) =>
      assert program == Optional(PutChannel, channel);
      StoreMaybe(w, channel, AsChannel(), 0, PutChannel, now);
    case ChannelDeleted(community, channel) =>
      assert program == InvalidateChannel(community, channel);
      DropChannel(w, community, channel, now);
    case CommunityUpdated(id, community) =>
      assert program == CommunityProgram(id, community);
      ApplyCommunity(w, id, community, now);
    case CommunityDeleted(id) =>
      assert program == InvalidateCommunity(id);
      DropCommunity(w, id, now);
    case CommunityUnavailable(id) =>
      assert program == InvalidateCommunity(id);
      DropCommunity(w, id, now);
  }

  method HandleMember(w: Writer, update: Update, ghost program: Program, now: nat)
    requires w.Valid() && program == ApplyUpdate(update) && AboutMember(update)
    modifies w
    ensures w.Valid() && w.Model() == Exec(old(w.Model()), program, now)
  {
    match update
    case MemberCreated(community, id, member, user) =>
      assert program == NewMemberProgram(community, id, member, user);
      ApplyNewMember(w, community, id, member, user, now);
    case MemberUpdated(community, id, member) =>
      if member.None? {
        assert program == [Op.Delete(EntityKey(MEMBER, community, id))];
        Evict(w, EntityKey(MEMBER, community, id), now);
      } else {
        assert program == PutMember(community)(member.value);
        Store(w, MemberV(member.value), community, now);
      }
    case MemberDeleted(community, id) =>
      assert program == [Op.Delete(EntityKey(MEMBER, community, id))];
      Evict(w, EntityKey(MEMBER, community, id), now);
    case MemberListUpdated(entries) =>
      assert program == Each(PutEntry, entries);
      StoreEntries(w, entries, now);
  }
}
