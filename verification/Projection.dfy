/** How results, gateway updates and local mutations are projected into the cache: each is a program
    of cache operations. */
module Projection {
  import opened Wrappers
  import opened EntityKeys
  import opened CacheModel

  // ---------- Entities: the fields the projections touch, and the rest as one opaque number ----------

  datatype User = User(id: nat, status: Option<nat>, rest: nat)
  datatype Community = Community(id: nat, name: string, username: Option<string>, rest: nat)
  datatype Channel = Channel(id: nat, communityId: nat, rest: nat)
  datatype Member = Member(id: nat, communityId: nat, roleIds: seq<nat>, nickname: Option<string>)
  datatype Role = Role(id: nat, communityId: nat, name: string, permissions: nat, priority: nat, color: nat,
                       separated: bool, public: bool)
  datatype Message = Message(chatRef: Option<ProtoChatRef>, id: nat, text: string, entities: seq<nat>,
                             pinned: Option<bool>, rest: nat)

  datatype Value =
    | UserV(user: User)
    | CommunityV(community: Community)
    | ChannelV(channel: Channel)
    | MemberV(member: Member)
    | RoleV(role: Role)
    | MessageV(message: Message)

  /** The one key an entity belongs under. */
  function KeyOf(v: Value): Key {
    match v
    case UserV(u) => EntityKey(USER, 0, u.id)
    case CommunityV(c) => EntityKey(COMMUNITY, 0, c.id)
    case ChannelV(c) => EntityKey(CHANNEL, c.communityId, c.id)
    case MemberV(m) => EntityKey(MEMBER, m.communityId, m.id)
    case RoleV(r) => EntityKey(ROLE, r.communityId, r.id)
    case MessageV(m) => MessageKey(ChatRefFromProto(m.chatRef), m.id)
  }

  /** Entities whose scope is unknown are not cached. */
  predicate Cacheable(v: Value) {
    match v
    case UserV(_) => true
    case CommunityV(_) => true
    case ChannelV(c) => c.communityId != 0
    case MemberV(m) => m.communityId != 0
    case RoleV(r) => r.communityId != 0
    case MessageV(m) => ChatRefFromProto(m.chatRef).Valid()
  }

  // ---------- Requests, results, updates ----------

  /** The reads whose results are projected by their result alone; their fields stay encoded. */
  datatype ReadKind =
    | GetChannelMembers | GetChat | GetChats | GetChatMembers | GetHistory | Search | GetPinnedMessages
    | LookupUsername | GetProfile

  datatype Request =
    | GetCommunities
    | GetChannels(community: nat)
    | GetMembers(community: nat, memberIds: seq<nat>)
    | GetRoles(community: nat)
    | OtherRead(read: ReadKind, fields: string)
    | DeleteCommunity(community: nat)
    | LeaveCommunity(community: nat)
    | DeleteChannel(community: nat, channel: nat)
    | EditCommunity(community: nat, name: Option<string>, username: Option<string>)
    | EditChannel(community: nat, channel: nat)
    | EditMember(community: nat, member: nat, nickname: Option<string>, roleIds: Option<seq<nat>>)
    | RemoveMembers(community: nat, memberIds: seq<nat>)
    | EditRole(role: Role)
    | DeleteRole(community: nat, roleId: nat)
    | EditDefaultPermissions(community: nat)
    | SendMessage(chat: Option<ProtoChatRef>, text: string, entities: seq<nat>)
    | EditMessage(chat: Option<ProtoChatRef>, message: nat)
    | DeleteMessage(chat: Option<ProtoChatRef>, messageIds: seq<nat>)
    | SetMessagePin(chat: Option<ProtoChatRef>, message: nat, pin: bool)
    | OtherMutation(tag: string)
  {
    predicate IsStateRead() {
      GetCommunities? || GetChannels? || GetMembers? || GetRoles? || OtherRead?
    }
  }

  /** Void is a response without a result; an error never reaches the cache. */
  datatype Result =
    | Void
    | Communities(communities: seq<Community>, unavailable: seq<nat>)
    | Channels(channels: seq<Channel>, messages: seq<Message>)
    | Members(members: seq<Member>, users: seq<User>)
    | CommunityRoles(roles: seq<Role>)
    | Messages(users: seq<User>, members: seq<Member>, messages: seq<Message>)
    | Chat(users: seq<User>, channel: Option<Channel>, message: Option<Message>)
    | Chats(users: seq<User>, channels: seq<Channel>, messages: seq<Message>)
    | ChatMembers(users: seq<User>)
    | UserDetails(user: Option<User>)
    | MemberList(entries: seq<Option<User>>)
    | SentMessage(id: nat)
    | RemovedMembers(userIds: seq<nat>)
    | OtherResult

  datatype Status = Status(userId: nat, status: Option<nat>)

  datatype Update =
    | MessageCreated(author: Option<User>, message: Option<Message>)
    | MessageUpdated(message: Option<Message>)
    | MessageDeleted(chat: Option<ProtoChatRef>, messageIds: seq<nat>)
    | ChannelUpdated(channel: Option<Channel>)
    | ChannelDeleted(communityId: nat, channelId: nat)
    | UserUpdated(userId: nat, user: Option<User>)
    | UserStatus(status: Status)
    | UserStatusBatch(statuses: seq<Status>)
    | CommunityUpdated(communityId: nat, community: Option<Community>)
    | CommunityDeleted(communityId: nat)
    | CommunityUnavailable(communityId: nat)
    | MemberCreated(communityId: nat, memberId: nat, member: Option<Member>, user: Option<User>)
    | MemberUpdated(communityId: nat, memberId: nat, member: Option<Member>)
    | MemberDeleted(communityId: nat, memberId: nat)
    | MemberListUpdated(entries: seq<Option<User>>)
    | ChatUpdated(users: seq<User>, channel: Option<Channel>, message: Option<Message>)
    | GroupUpdated(users: seq<User>)
    | OtherUpdate

  // ---------- Programs ----------

  type Program = seq<Op<Value>>

  function Each<T>(f: T -> Program, xs: seq<T>): Program {
    if xs == [] then [] else f(xs[0]) + Each(f, xs[1..])
  }

  function Optional<T>(f: T -> Program, x: Option<T>): Program {
    match x case None => [] case Some(v) => f(v)
  }

  function PutValue(v: Value): Program {
    if Cacheable(v) then [Put(KeyOf(v), v, false)] else []
  }

  function PutUser(u: User): Program { PutValue(UserV(u)) }
  function PutCommunity(c: Community): Program { PutValue(CommunityV(c)) }
  function PutChannel(c: Channel): Program { PutValue(ChannelV(c)) }
  function PutMessage(m: Message): Program { PutValue(MessageV(m)) }
  function PutEntry(entry: Option<User>): Program { Optional(PutUser, entry) }

  /** A member or role that names no community belongs to the one that was asked about. */
  function MemberIn(scope: nat): Member -> Value {
    (m: Member) => MemberV(if m.communityId == 0 then m.(communityId := scope) else m)
  }

  function RoleIn(scope: nat): Role -> Value {
    (r: Role) => RoleV(if r.communityId == 0 then r.(communityId := scope) else r)
  }

  function PutMember(scope: nat): Member -> Program { (m: Member) => PutValue(MemberIn(scope)(m)) }
  function PutRole(scope: nat): Role -> Program { (r: Role) => PutValue(RoleIn(scope)(r)) }

  function ObserveChat(users: seq<User>, channel: Option<Channel>, message: Option<Message>): Program {
    Each(PutUser, users) + Optional(PutChannel, channel) + Optional(PutMessage, message)
  }

  function CommunityIds(cs: seq<Community>): set<nat> { set c | c in cs :: c.id }
  function ChannelIds(cs: seq<Channel>): set<nat> { set c | c in cs :: c.id }

  /** Keys that a full list of communities shows to be gone. */
  function OutsideCommunities(visible: set<nat>): Key -> bool {
    (k: Key) => (k.kind == COMMUNITY && k.id !in visible) || (k.scope != 0 && k.scope !in visible)
  }

  function OutsideChannels(community: nat, visible: set<nat>): Key -> bool {
    (k: Key) => k.scope == community &&
      ((k.kind == CHANNEL && k.id !in visible) || (k.kind == MESSAGE && k.parent !in visible))
  }

  function OfKindIn(kind: Kind, scope: nat): Key -> bool { (k: Key) => k.kind == kind && k.scope == scope }

  function OfCommunity(id: nat): Key -> bool {
    (k: Key) => (k.kind == COMMUNITY && k.id == id) || (k.scope == id && k.kind != USER)
  }

  function MessagesOf(community: nat, channel: nat): Key -> bool {
    (k: Key) => IsChannelMessage(k, community, channel)
  }

  function InvalidateCommunity(id: nat): Program { [DeleteWhere(OfCommunity(id))] }

  function InvalidateChannel(community: nat, channel: nat): Program {
    [Delete(EntityKey(CHANNEL, community, channel)), DeleteWhere(MessagesOf(community, channel))]
  }

  function DeleteMember(community: nat): nat -> Program {
    (id: nat) => [Delete(EntityKey(MEMBER, community, id))]
  }

  function DeleteMessageIn(chat: Option<ProtoChatRef>): nat -> Program {
    (id: nat) => [Delete(MessageKey(ChatRefFromProto(chat), id))]
  }

  /** A read's result, observed under the read that asked for it. */
  function ObserveResult(request: Request, result: Result): Program {
    match result
    case Communities(cs, unavailable) =>
      [DeleteWhere(OutsideCommunities(CommunityIds(cs)))] + Each(PutCommunity, cs)
      + Each(InvalidateCommunity, unavailable)
    case Channels(cs, ms) =>
      ChannelSweep(request, cs) + Each(PutChannel, cs) + Each(PutMessage, ms)
    case Members(ms, us) =>
      var scope := if request.GetMembers? then request.community else 0;
      MemberSweep(request, ms, us) + Each(PutUser, us) + Each(PutMember(scope), ms)
    case CommunityRoles(rs) =>
      var scope := if request.GetRoles? then request.community else 0;
      [DeleteWhere(OfKindIn(ROLE, scope))] + Each(PutRole(scope), rs)
    case Messages(us, members, ms) => Each(PutUser, us) + Each(PutMember(0), members) + Each(PutMessage, ms)
    case Chat(us, c, m) => ObserveChat(us, c, m)
    case Chats(us, cs, ms) => Each(PutUser, us) + Each(PutChannel, cs) + Each(PutMessage, ms)
    case ChatMembers(us) => Each(PutUser, us)
    case UserDetails(u) => Optional(PutUser, u)
    case MemberList(entries) => Each(PutEntry, entries)
    case _ => []
  }

  function ChannelSweep(request: Request, cs: seq<Channel>): Program {
    if request.GetChannels? then [DeleteWhere(OutsideChannels(request.community, ChannelIds(cs)))] else []
  }

  /** Requested members that are missing are gone; a bulk list is complete unless it carries only users. */
  function MemberSweep(request: Request, ms: seq<Member>, us: seq<User>): Program {
    if !request.GetMembers? then []
    else if request.memberIds != [] then Each(DeleteMember(request.community), request.memberIds)
    else if ms != [] || us == [] then [DeleteWhere(OfKindIn(MEMBER, request.community))]
    else []
  }

  function SetStatus(status: Option<nat>): Value -> Value {
    (v: Value) => if v.UserV? then UserV(v.user.(status := status)) else v
  }

  function UpdateStatus(s: Status): Program { [Edit(EntityKey(USER, 0, s.userId), SetStatus(s.status))] }

  function CommunityProgram(id: nat, community: Option<Community>): Program {
    [DeleteWhere(OfKindIn(ROLE, id))]
    + (if community.None? then [Delete(EntityKey(COMMUNITY, 0, id))] else PutCommunity(community.value))
  }

  /** A member that came without details is cached as a partial one. */
  function NewMemberProgram(community: nat, id: nat, member: Option<Member>, user: Option<User>): Program {
    Optional(PutUser, user)
    + (if member.Some? then PutMember(community)(member.value)
       else [Put(EntityKey(MEMBER, community, id), MemberV(Member(id, community, [], None)), true)])
  }

  /** A gateway update. */
  function ApplyUpdate(update: Update): Program {
    match update
    case MessageCreated(author, message) => Optional(PutUser, author) + Optional(PutMessage, message)
    case MessageUpdated(message) => Optional(PutMessage, message)
    case MessageDeleted(chat, ids) => Each(DeleteMessageIn(chat), ids)
    case ChannelUpdated(channel) => Optional(PutChannel, channel)
    case ChannelDeleted(community, channel) => InvalidateChannel(community, channel)
    case UserUpdated(id, user) => if user.None? then [Delete(EntityKey(USER, 0, id))] else PutUser(user.value)
    case UserStatus(status) => UpdateStatus(status)
    case UserStatusBatch(statuses) => Each(UpdateStatus, statuses)
    case CommunityUpdated(id, community) => CommunityProgram(id, community)
    case CommunityDeleted(id) => InvalidateCommunity(id)
    case CommunityUnavailable(id) => InvalidateCommunity(id)
    case MemberCreated(community, id, member, user) => NewMemberProgram(community, id, member, user)
    case MemberUpdated(community, id, member) =>
      if member.None? then [Delete(EntityKey(MEMBER, community, id))] else PutMember(community)(member.value)
    case MemberDeleted(community, id) => [Delete(EntityKey(MEMBER, community, id))]
    case MemberListUpdated(entries) => Each(PutEntry, entries)
    case ChatUpdated(us, c, m) => ObserveChat(us, c, m)
    case GroupUpdated(us) => Each(PutUser, us)
    case OtherUpdate => []
  }

  function EditedCommunity(name: Option<string>, username: Option<string>): Value -> Value {
    (v: Value) =>
      if !v.CommunityV? then v
      else CommunityV(v.community.(name := if name.Some? then name.value else v.community.name,
                                   username := if username.Some? then username else v.community.username))
  }

  function EditedMember(nickname: Option<string>, roleIds: Option<seq<nat>>): Value -> Value {
    (v: Value) =>
      if !v.MemberV? then v
      else MemberV(v.member.(nickname := if nickname.Some? then nickname else v.member.nickname,
                             roleIds := if roleIds.Some? then roleIds.value else v.member.roleIds))
  }

  function Pinned(pin: bool): Value -> Value {
    (v: Value) => if v.MessageV? then MessageV(v.message.(pinned := Some(pin))) else v
  }

  /** A mutation that no event raced. */
  function ObserveMutation(request: Request, result: Result): Program {
    if !result.Void? then
      match request
      case SendMessage(chat, text, entities) =>
        if !result.SentMessage? then [] else
        [Put(MessageKey(ChatRefFromProto(chat), result.id),
             MessageV(Message(chat, result.id, text, entities, None, 0)), true)]
      case RemoveMembers(community, _) =>
        if !result.RemovedMembers? then [] else Each(DeleteMember(community), result.userIds)
      case _ => []
    else
      match request
      case DeleteCommunity(id) => InvalidateCommunity(id)
      case LeaveCommunity(id) => InvalidateCommunity(id)
      case DeleteChannel(community, channel) => InvalidateChannel(community, channel)
      case EditCommunity(id, name, username) =>
        [Edit(EntityKey(COMMUNITY, 0, id), EditedCommunity(name, username))]
      case EditChannel(community, channel) => [Delete(EntityKey(CHANNEL, community, channel))]
      case EditMember(community, id, nickname, roleIds) =>
        [Edit(EntityKey(MEMBER, community, id), EditedMember(nickname, roleIds))]
      case RemoveMembers(community, ids) => Each(DeleteMember(community), ids)
      case EditRole(role) => PutRole(role.communityId)(role)
      case DeleteRole(community, id) =>
        [Delete(EntityKey(ROLE, community, id)), DeleteWhere(OfKindIn(MEMBER, community))]
      case EditDefaultPermissions(id) => InvalidateCommunity(id)
      case EditMessage(chat, id) => [Delete(MessageKey(ChatRefFromProto(chat), id))]
      case DeleteMessage(chat, ids) => Each(DeleteMessageIn(chat), ids)
      case SetMessagePin(chat, id, pin) => [Edit(MessageKey(ChatRefFromProto(chat), id), Pinned(pin))]
      case _ => []
  }

  /** A mutation that some event, mutation or invalidation raced. */
  function InvalidateMutation(request: Request, result: Result): Program {
    if !result.Void? then
      if request.RemoveMembers? && result.RemovedMembers? then ObserveMutation(request, result) else []
    else
      match request
      case EditCommunity(id, _, _) => [Delete(EntityKey(COMMUNITY, 0, id))]
      case EditChannel(community, channel) => [Delete(EntityKey(CHANNEL, community, channel))]
      case EditMember(community, id, _, _) => [Delete(EntityKey(MEMBER, community, id))]
      case EditRole(role) => [Delete(EntityKey(ROLE, role.communityId, role.id))]
      case SetMessagePin(chat, id, _) => [Delete(MessageKey(ChatRefFromProto(chat), id))]
      case _ => ObserveMutation(request, result)
  }

  /** What a call does to the cache once its result has arrived. */
  function Observed(request: Request, captured: nat, result: Result): Action<Value> {
    if request.IsStateRead() then Accept(captured, ObserveResult(request, result))
    else Mutate(captured, ObserveMutation(request, result), InvalidateMutation(request, result))
  }
}
