/** Chat references, their wire form, and the keys under which entities are cached. */
module EntityKeys {
  import opened Wrappers

  // A kind is any byte; only those below KINDS have an LRU list.
  type Kind = k: nat | k < 256

  const USER: Kind := 0
  const COMMUNITY: Kind := 1
  const CHANNEL: Kind := 2
  const MEMBER: Kind := 3
  const ROLE: Kind := 4
  const MESSAGE: Kind := 5
  const KINDS: Kind := 6

  datatype Key = Key(kind: Kind, scope: nat, parent: nat, id: nat, chat: nat)

  datatype ProtoChatRef =
    | UserRef(userId: nat)
    | ChannelRef(communityId: nat, channelId: nat)
    | GroupRef(groupId: nat)
    | SelfRef
    | Unset

  datatype ChatRef = ChatRef(userId: nat, communityId: nat, channelId: nat, groupId: nat, self: bool) {
    predicate Valid() {
      if self then userId == 0 && communityId == 0 && channelId == 0 && groupId == 0
      else if userId != 0 then communityId == 0 && channelId == 0 && groupId == 0
      else if channelId != 0 then userId == 0 && communityId != 0 && groupId == 0
      else if groupId != 0 then userId == 0 && communityId == 0 && channelId == 0
      else false
    }

    /** None stands for the "invalid chat reference" error. */
    function ToProto(): Option<ProtoChatRef> {
      if !Valid() then None
      else if self then Some(SelfRef)
      else if userId != 0 then Some(UserRef(userId))
      else if channelId != 0 then Some(ChannelRef(communityId, channelId))
      else Some(GroupRef(groupId))
    }
  }

  const NO_CHAT := ChatRef(0, 0, 0, 0, false)

  function UserChat(id: nat): ChatRef { ChatRef(id, 0, 0, 0, false) }
  function ChannelChat(community: nat, channel: nat): ChatRef { ChatRef(0, community, channel, 0, false) }
  function GroupChat(id: nat): ChatRef { ChatRef(0, 0, 0, id, false) }
  function SelfChat(): ChatRef { ChatRef(0, 0, 0, 0, true) }

  function ChatRefFromProto(value: Option<ProtoChatRef>): ChatRef {
    match value
    case None => NO_CHAT
    case Some(UserRef(id)) => UserChat(id)
    case Some(ChannelRef(community, channel)) => ChannelChat(community, channel)
    case Some(GroupRef(id)) => GroupChat(id)
    case Some(SelfRef) => SelfChat()
    case Some(Unset) => NO_CHAT
  }

  function EntityKey(kind: Kind, scope: nat, id: nat): Key { Key(kind, scope, 0, id, 0) }

  function MessageKey(chat: ChatRef, id: nat): Key {
    if chat.communityId != 0 then Key(MESSAGE, chat.communityId, chat.channelId, id, 1)
    else if chat.userId != 0 then Key(MESSAGE, 0, chat.userId, id, 2)
    else if chat.groupId != 0 then Key(MESSAGE, 0, chat.groupId, id, 3)
    else if chat.self then Key(MESSAGE, 0, 0, id, 4)
    else Key(MESSAGE, 0, 0, id, 0)
  }

  /** A view of one kind of entity, optionally scoped to a community or a chat. */
  datatype Manager = Manager(kind: Kind, scope: nat, chat: ChatRef) {
    function KeyOf(id: nat): Key {
      if kind == MESSAGE then MessageKey(chat, id) else EntityKey(kind, scope, id)
    }

    /** validate: the id and the scope without which no entity of the kind can be named. */
    predicate Names(id: nat) {
      && id != 0
      && (kind == CHANNEL || kind == MEMBER || kind == ROLE ==> scope != 0)
      && (kind == MESSAGE ==> chat.Valid())
    }

    predicate Matches(k: Key) {
      k.kind == kind &&
      if kind == MESSAGE && chat.Valid() then KeyOf(k.id) == k
      else scope == 0 || k.scope == scope
    }
  }

  /** The keys invalidateChannel sweeps besides the channel's own. */
  predicate IsChannelMessage(k: Key, community: nat, channel: nat) {
    k.kind == MESSAGE && k.chat == 1 && k.scope == community && k.parent == channel
  }

  // ---------- Properties ----------

  /** Chats are valid exactly when made from nonzero ids, and every valid chat is one so made; the wire form
      of each names its kind. An absent or unset reference is no chat. */
  lemma ChatsAreMadeFromIds(r: ChatRef, a: nat, b: nat)
    ensures UserChat(a) == ChatRef(a, 0, 0, 0, false) && (UserChat(a).Valid() <==> a != 0)
    ensures ChannelChat(a, b) == ChatRef(0, a, b, 0, false) && (ChannelChat(a, b).Valid() <==> a != 0 && b != 0)
    ensures GroupChat(a) == ChatRef(0, 0, 0, a, false) && (GroupChat(a).Valid() <==> a != 0)
    ensures SelfChat() == ChatRef(0, 0, 0, 0, true) && SelfChat().Valid()
    ensures r.Valid() ==>
      r in {UserChat(r.userId), ChannelChat(r.communityId, r.channelId), GroupChat(r.groupId), SelfChat()}
    ensures a != 0 ==> UserChat(a).ToProto() == Some(UserRef(a)) && GroupChat(a).ToProto() == Some(GroupRef(a))
    ensures a != 0 && b != 0 ==> ChannelChat(a, b).ToProto() == Some(ChannelRef(a, b))
    ensures SelfChat().ToProto() == Some(SelfRef)
    ensures !ChatRefFromProto(None).Valid() && !ChatRefFromProto(Some(Unset)).Valid()
  {
  }

  /** Valid references survive the wire, invalid ones never reach it, and a wire value that
      decodes to a valid reference is the one that reference encodes to. */
  lemma ChatRefRoundTrip(r: ChatRef, p: ProtoChatRef)
    ensures r.Valid() <==> r.ToProto().Some?
    ensures r.Valid() ==> ChatRefFromProto(r.ToProto()) == r
    ensures ChatRefFromProto(Some(p)).Valid() ==> ChatRefFromProto(Some(p)).ToProto() == Some(p)
  {
  }

  /** A valid chat shares no message key with any other chat that is valid or came off the wire. */
  lemma MessageKeyInjective(a: ChatRef, b: ChatRef, p: Option<ProtoChatRef>, i: nat, j: nat)
    requires a.Valid()
    requires b.Valid() || b == ChatRefFromProto(p)
    requires MessageKey(a, i) == MessageKey(b, j)
    ensures a == b && i == j
  {
  }

  /** A manager of any kind but messages names its entities by scope and id and selects by kind and scope,
      every scope if it has none; so it selects whatever it names. */
  lemma ManagerSelectsItsScope(m: Manager, id: nat, k: Key)
    requires m.kind != MESSAGE
    ensures m.KeyOf(id) == Key(m.kind, m.scope, 0, id, 0)
    ensures m.Names(id) <==> id != 0 && (m.kind in {CHANNEL, MEMBER, ROLE} ==> m.scope != 0)
    ensures m.Matches(k) <==> k.kind == m.kind && (m.scope == 0 || k.scope == m.scope)
    ensures m.Matches(m.KeyOf(id))
  {
  }

  /** A message manager names messages of a valid chat only; without one it selects by scope. */
  lemma MessageManager(m: Manager, id: nat, k: Key)
    requires m.kind == MESSAGE
    ensures m.KeyOf(id) == MessageKey(m.chat, id)
    ensures m.Names(id) <==> id != 0 && m.chat.Valid()
    ensures m.Names(id) ==> m.Matches(m.KeyOf(id))
    ensures !m.chat.Valid() ==> (m.Matches(k) <==> k.kind == MESSAGE && (m.scope == 0 || k.scope == m.scope))
  {
  }

  /** In(chat) selects exactly that chat's messages; a valid channel chat's messages are exactly
      what invalidateChannel sweeps. */
  lemma ChatManagerSelectsItsChat(chat: ChatRef, scope: nat, k: Key)
    requires chat.Valid()
    ensures Manager(MESSAGE, scope, chat).Matches(k) <==> exists id: nat :: k == MessageKey(chat, id)
    ensures chat.channelId != 0 ==>
      (Manager(MESSAGE, scope, chat).Matches(k) <==> IsChannelMessage(k, chat.communityId, chat.channelId))
  {
    var m := Manager(MESSAGE, scope, chat);
    if m.Matches(k) {
      assert k == MessageKey(chat, k.id);
    }
    if chat.channelId != 0 {
      // Keys outside the channel's family differ from the key the manager would build.
      assert m.KeyOf(k.id) == Key(MESSAGE, chat.communityId, chat.channelId, k.id, 1);
    }
  }
}
