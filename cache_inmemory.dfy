/** The in-memory backend of the Discord entity cache (`cache/discord/src/inmemory`): one
    table per entity kind, the guild-to-id index sets, the optional current user, and the
    repositories over them. Concurrent maps and sets are modelled as sequential `map`s and
    `set`s; the iteration order of a `DashSet` is unspecified, so the streams over an index
    set are modelled as sets. */
module CacheInMemory {
  import opened Wrappers

  // ---------------------------------------------------------------------------------------
  // Identifiers and entities

  datatype AttachmentId = AttachmentId(get: nat)
  datatype ChannelId = ChannelId(get: nat)
  datatype EmojiId = EmojiId(get: nat)
  datatype GuildId = GuildId(get: nat)
  datatype MessageId = MessageId(get: nat)
  datatype RoleId = RoleId(get: nat)
  datatype UserId = UserId(get: nat)
  datatype StickerId = StickerId(get: nat)
  datatype StickerPackId = StickerPackId(get: nat)

  /** The cached entities: their identifiers, the relations the repositories follow, and
      their other attributes as an opaque payload. */
  datatype AttachmentEntity = AttachmentEntity(messageId: MessageId, id: AttachmentId, payload: string)
  datatype ChannelEntity = ChannelEntity(id: ChannelId, payload: string)
  datatype CurrentUserEntity = CurrentUserEntity(id: UserId, payload: string)
  datatype EmojiEntity = EmojiEntity(id: EmojiId, payload: string)
  datatype GuildEntity = GuildEntity(id: GuildId, payload: string)
  datatype MemberEntity = MemberEntity(guildId: GuildId, userId: UserId, roleIds: seq<RoleId>, payload: string)
  datatype MessageEntity = MessageEntity(id: MessageId, payload: string)
  datatype PresenceEntity = PresenceEntity(guildId: GuildId, userId: UserId, payload: string)
  datatype RoleEntity = RoleEntity(id: RoleId, payload: string)
  datatype UserEntity = UserEntity(id: UserId, payload: string)
  datatype StickerPackEntity = StickerPackEntity(id: StickerPackId, stickerIds: seq<StickerId>, payload: string)
  datatype StickerEntity = StickerEntity(id: StickerId, packId: Option<StickerPackId>, payload: string)
  datatype ThreadEntity = ThreadEntity(id: ChannelId, payload: string)

  /** The entity kinds with a table of their own (those with an `EntityExt` routing). */
  datatype Entity =
    | Attachment(attachment: AttachmentEntity)
    | Channel(channel: ChannelEntity)
    | Emoji(emoji: EmojiEntity)
    | Guild(guild: GuildEntity)
    | Member(member: MemberEntity)
    | Message(message: MessageEntity)
    | Presence(presence: PresenceEntity)
    | Role(role: RoleEntity)
    | User(user: UserEntity)
    | StickerPack(stickerPack: StickerPackEntity)
    | Sticker(sticker: StickerEntity)
    | Thread(thread: ThreadEntity)

  /** The key of an entity in its kind's table: members and presences by guild and user,
      attachments by message and attachment, the others by their own id. */
  datatype EntityKey =
    | AttachmentKey(attachmentMessage: MessageId, attachmentId: AttachmentId)
    | ChannelKey(channelId: ChannelId)
    | EmojiKey(emojiId: EmojiId)
    | GuildKey(guildId: GuildId)
    | MemberKey(memberGuild: GuildId, memberUser: UserId)
    | MessageKey(messageId: MessageId)
    | PresenceKey(presenceGuild: GuildId, presenceUser: UserId)
    | RoleKey(roleId: RoleId)
    | UserKey(userId: UserId)
    | StickerPackKey(stickerPackId: StickerPackId)
    | StickerKey(stickerId: StickerId)
    | ThreadKey(threadId: ChannelId)

  /** The repository kinds: one per table, and the current user. */
  datatype Kind =
    | AttachmentKind | ChannelKind | EmojiKind | GuildKind | MemberKind | MessageKind
    | PresenceKind | RoleKind | UserKind | StickerPackKind | StickerKind | ThreadKind
    | CurrentUserKind

  /** `Entity::id`. */
  function Id(e: Entity): (k: EntityKey)
    ensures KeyKind(k) == KindOf(e)
  {
    match e
    case Attachment(a) => AttachmentKey(a.messageId, a.id)
    case Channel(c) => ChannelKey(c.id)
    case Emoji(x) => EmojiKey(x.id)
    case Guild(g) => GuildKey(g.id)
    case Member(m) => MemberKey(m.guildId, m.userId)
    case Message(m) => MessageKey(m.id)
    case Presence(p) => PresenceKey(p.guildId, p.userId)
    case Role(r) => RoleKey(r.id)
    case User(u) => UserKey(u.id)
    case StickerPack(p) => StickerPackKey(p.id)
    case Sticker(s) => StickerKey(s.id)
    case Thread(t) => ThreadKey(t.id)
  }

  function KindOf(e: Entity): Kind {
    match e
    case Attachment(_) => AttachmentKind
    case Channel(_) => ChannelKind
    case Emoji(_) => EmojiKind
    case Guild(_) => GuildKind
    case Member(_) => MemberKind
    case Message(_) => MessageKind
    case Presence(_) => PresenceKind
    case Role(_) => RoleKind
    case User(_) => UserKind
    case StickerPack(_) => StickerPackKind
    case Sticker(_) => StickerKind
    case Thread(_) => ThreadKind
  }

  function KeyKind(k: EntityKey): Kind {
    match k
    case AttachmentKey(_, _) => AttachmentKind
    case ChannelKey(_) => ChannelKind
    case EmojiKey(_) => EmojiKind
    case GuildKey(_) => GuildKind
    case MemberKey(_, _) => MemberKind
    case MessageKey(_) => MessageKind
    case PresenceKey(_, _) => PresenceKind
    case RoleKey(_) => RoleKind
    case UserKey(_) => UserKind
    case StickerPackKey(_) => StickerPackKind
    case StickerKey(_) => StickerKind
    case ThreadKey(_) => ThreadKind
  }

  /** `InMemoryBackendError`: no operation of the backend ever returns it. */
  datatype InMemoryBackendError = InMemoryBackendError

  /** Its `Display`. */
  function ErrorMessage(e: InMemoryBackendError): (r: string)
    ensures r == "this error cannot be created"
  {
    "this error cannot be created"
  }

  // ---------------------------------------------------------------------------------------
  // The entity tables as a value

  /** The contents of the entity tables. */
  datatype Tables = Tables(
    attachments: map<(MessageId, AttachmentId), AttachmentEntity>,
    channels: map<ChannelId, ChannelEntity>,
    emojis: map<EmojiId, EmojiEntity>,
    guilds: map<GuildId, GuildEntity>,
    members: map<(GuildId, UserId), MemberEntity>,
    messages: map<MessageId, MessageEntity>,
    presences: map<(GuildId, UserId), PresenceEntity>,
    roles: map<RoleId, RoleEntity>,
    users: map<UserId, UserEntity>,
    stickerPacks: map<StickerPackId, StickerPackEntity>,
    stickers: map<StickerId, StickerEntity>,
    threads: map<ChannelId, ThreadEntity>)

  /** What `entity(id)` finds: the value stored under the key in its kind's table. */
  function Lookup(t: Tables, k: EntityKey): Option<Entity> {
    match k
    case AttachmentKey(m, a) => if (m, a) in t.attachments then Some(Attachment(t.attachments[(m, a)])) else None
    case ChannelKey(c) => if c in t.channels then Some(Channel(t.channels[c])) else None
    case EmojiKey(x) => if x in t.emojis then Some(Emoji(t.emojis[x])) else None
    case GuildKey(g) => if g in t.guilds then Some(Guild(t.guilds[g])) else None
    case MemberKey(g, u) => if (g, u) in t.members then Some(Member(t.members[(g, u)])) else None
    case MessageKey(m) => if m in t.messages then Some(Message(t.messages[m])) else None
    case PresenceKey(g, u) => if (g, u) in t.presences then Some(Presence(t.presences[(g, u)])) else None
    case RoleKey(r) => if r in t.roles then Some(Role(t.roles[r])) else None
    case UserKey(u) => if u in t.users then Some(User(t.users[u])) else None
    case StickerPackKey(p) => if p in t.stickerPacks then Some(StickerPack(t.stickerPacks[p])) else None
    case StickerKey(s) => if s in t.stickers then Some(Sticker(t.stickers[s])) else None
    case ThreadKey(c) => if c in t.threads then Some(Thread(t.threads[c])) else None
  }

  /** The tables after `upsert(e)`: `e` stored under its own id in its kind's table. */
  function Upserted(t: Tables, e: Entity): Tables {
    match e
    case Attachment(a) => t.(attachments := t.attachments[(a.messageId, a.id) := a])
    case Channel(c) => t.(channels := t.channels[c.id := c])
    case Emoji(x) => t.(emojis := t.emojis[x.id := x])
    case Guild(g) => t.(guilds := t.guilds[g.id := g])
    case Member(m) => t.(members := t.members[(m.guildId, m.userId) := m])
    case Message(m) => t.(messages := t.messages[m.id := m])
    case Presence(p) => t.(presences := t.presences[(p.guildId, p.userId) := p])
    case Role(r) => t.(roles := t.roles[r.id := r])
    case User(u) => t.(users := t.users[u.id := u])
    case StickerPack(p) => t.(stickerPacks := t.stickerPacks[p.id := p])
    case Sticker(s) => t.(stickers := t.stickers[s.id := s])
    case Thread(x) => t.(threads := t.threads[x.id := x])
  }

  /** After `upsert(e)`, `entity(e.id())` is `e`, whatever was stored before. */
  lemma UpsertThenLookup(t: Tables, e: Entity)
    ensures Lookup(Upserted(t, e), Id(e)) == Some(e)
  {
  }

  /** `upsert(e)` leaves the tables of the other kinds as they were. */
  lemma UpsertOtherTables(t: Tables, e: Entity)
    ensures KindOf(e) != AttachmentKind ==> Upserted(t, e).attachments == t.attachments
    ensures KindOf(e) != ChannelKind ==> Upserted(t, e).channels == t.channels
    ensures KindOf(e) != EmojiKind ==> Upserted(t, e).emojis == t.emojis
    ensures KindOf(e) != GuildKind ==> Upserted(t, e).guilds == t.guilds
    ensures KindOf(e) != MemberKind ==> Upserted(t, e).members == t.members
    ensures KindOf(e) != MessageKind ==> Upserted(t, e).messages == t.messages
    ensures KindOf(e) != PresenceKind ==> Upserted(t, e).presences == t.presences
    ensures KindOf(e) != RoleKind ==> Upserted(t, e).roles == t.roles
    ensures KindOf(e) != UserKind ==> Upserted(t, e).users == t.users
    ensures KindOf(e) != StickerPackKind ==> Upserted(t, e).stickerPacks == t.stickerPacks
    ensures KindOf(e) != StickerKind ==> Upserted(t, e).stickers == t.stickers
    ensures KindOf(e) != ThreadKind ==> Upserted(t, e).threads == t.threads
  {
  }

  /** `upsert(e)` changes no other key of any table. */
  lemma UpsertKeepsOthers(t: Tables, e: Entity, k: EntityKey)
    requires k != Id(e)
    ensures Lookup(Upserted(t, e), k) == Lookup(t, k)
  {
    if KeyKind(k) == KindOf(e) {
      UpsertOtherKeySameTable(t, e, k);
    } else {
      UpsertOtherKind(t, e, k);
    }
  }

  /** The key of another kind lies in a table `upsert(e)` does not touch. */
  lemma UpsertOtherKind(t: Tables, e: Entity, k: EntityKey)
    requires KeyKind(k) != KindOf(e)
    ensures Lookup(Upserted(t, e), k) == Lookup(t, k)
  {
    UpsertOtherTables(t, e);
  }

  /** Within its own table, `upsert(e)` changes only the key of `e`. */
  lemma UpsertOtherKeySameTable(t: Tables, e: Entity, k: EntityKey)
    requires KeyKind(k) == KindOf(e) && k != Id(e)
    ensures Lookup(Upserted(t, e), k) == Lookup(t, k)
  {
  }

  /** Upserting twice under the same key keeps only the later entity: no lookup can tell
      the earlier upsert happened. */
  lemma UpsertOverwrites(t: Tables, e1: Entity, e2: Entity, k: EntityKey)
    requires Id(e1) == Id(e2)
    ensures Lookup(Upserted(Upserted(t, e1), e2), k) == Lookup(Upserted(t, e2), k)
  {
    if k == Id(e2) {
      UpsertThenLookup(Upserted(t, e1), e2);
      UpsertThenLookup(t, e2);
    } else {
      UpsertKeepsOthers(Upserted(t, e1), e2, k);
      UpsertKeepsOthers(t, e1, k);
      UpsertKeepsOthers(t, e2, k);
    }
  }

  // ---------------------------------------------------------------------------------------
  // Relation queries

  /** The ids of a guild's index set, or none when the guild has no entry. */
  function IndexOf<K>(index: map<GuildId, set<K>>, g: GuildId): (r: set<K>)
    ensures g in index ==> r == index[g]
    ensures g !in index ==> r == {}
  {
    if g in index then index[g] else {}
  }

  /** The entities of the given ids that are in the table; ids without an entity are
      skipped. */
  function Present<K(!new), E(!new)>(ids: set<K>, table: map<K, E>): (r: set<E>)
    ensures forall e :: e in r <==> exists k :: k in ids && k in table && table[k] == e
  {
    set k | k in ids && k in table :: table[k]
  }

  /** Adding an id with no entity does not change the result. */
  lemma DanglingIdIgnored<K(!new), E(!new)>(ids: set<K>, table: map<K, E>, k: K)
    requires k !in table
    ensures Present(ids + {k}, table) == Present(ids, table)
  {
  }

  /** The members of a guild: the entities stored under the guild and each user of its
      index set. */
  function GuildMembers(members: map<(GuildId, UserId), MemberEntity>, users: set<UserId>, g: GuildId)
    : (r: set<MemberEntity>)
    ensures forall m :: m in r <==> exists u :: u in users && (g, u) in members && members[(g, u)] == m
  {
    set u | u in users && (g, u) in members :: members[(g, u)]
  }

  /** The entities of the given ids, in order, skipping ids without an entity. */
  function PresentInOrder<K, E>(ids: seq<K>, table: map<K, E>): (r: seq<E>)
    ensures |r| <= |ids|
  {
    if ids == [] then []
    else (if ids[0] in table then [table[ids[0]]] else []) + PresentInOrder(ids[1..], table)
  }

  /** An entity is in the result exactly when one of the ids has it in the table. */
  lemma {:induction false} PresentInOrderMembers<K(!new), E(!new)>(ids: seq<K>, table: map<K, E>, e: E)
    ensures e in PresentInOrder(ids, table) <==> exists i :: 0 <= i < |ids| && ids[i] in table && table[ids[i]] == e
  {
    if ids != [] {
      PresentInOrderMembers(ids[1..], table, e);
      if e in PresentInOrder(ids[1..], table) {
        var i :| 0 <= i < |ids[1..]| && ids[1..][i] in table && table[ids[1..][i]] == e;
        assert ids[i + 1] == ids[1..][i];
      }
      if exists i :: 0 <= i < |ids| && ids[i] in table && table[ids[i]] == e {
        var i :| 0 <= i < |ids| && ids[i] in table && table[ids[i]] == e;
        if i > 0 {
          assert ids[1..][i - 1] == ids[i];
        }
      }
    }
  }

  /** The filter keeps the order of the ids: it works id by id. */
  lemma {:induction false} PresentInOrderAppend<K, E>(a: seq<K>, b: seq<K>, table: map<K, E>)
    ensures PresentInOrder(a + b, table) == PresentInOrder(a, table) + PresentInOrder(b, table)
  {
    if a == [] {
      assert a + b == b;
    } else {
      assert (a + b)[0] == a[0] && (a + b)[1..] == a[1..] + b;
      PresentInOrderAppend(a[1..], b, table);
    }
  }

  /** When every id has an entity, the result has one entity per id, in order. */
  lemma {:induction false} PresentInOrderComplete<K, E>(ids: seq<K>, table: map<K, E>)
    requires forall i :: 0 <= i < |ids| ==> ids[i] in table
    ensures |PresentInOrder(ids, table)| == |ids|
    ensures forall i :: 0 <= i < |ids| ==> PresentInOrder(ids, table)[i] == table[ids[i]]
  {
    if ids != [] {
      assert forall i :: 0 <= i < |ids[1..]| ==> ids[1..][i] == ids[i + 1];
      PresentInOrderComplete(ids[1..], table);
    }
  }

  /** `MemberRepository::roles`: the member's roles that are cached, in the member's order;
      nothing when the member is not cached. */
  function MemberRoles(t: Tables, g: GuildId, u: UserId): (r: seq<RoleEntity>)
    ensures (g, u) !in t.members ==> r == []
    ensures (g, u) in t.members ==> r == PresentInOrder(t.members[(g, u)].roleIds, t.roles)
  {
    if (g, u) in t.members then PresentInOrder(t.members[(g, u)].roleIds, t.roles) else []
  }

  /** `StickerPackRepository::stickers`: the pack's stickers that are cached, in the pack's
      order; nothing when the pack is not cached. */
  function PackStickers(t: Tables, p: StickerPackId): (r: seq<StickerEntity>)
    ensures p !in t.stickerPacks ==> r == []
    ensures p in t.stickerPacks ==> r == PresentInOrder(t.stickerPacks[p].stickerIds, t.stickers)
  {
    if p in t.stickerPacks then PresentInOrder(t.stickerPacks[p].stickerIds, t.stickers) else []
  }

  /** `StickerRepository::sticker_pack`: nothing when the sticker is not cached or has no
      pack; otherwise the lookup of its pack, which may itself be absent. */
  function PackOfSticker(t: Tables, s: StickerId): (r: Option<StickerPackEntity>)
    ensures r.Some? <==>
      s in t.stickers && t.stickers[s].packId.Some? && t.stickers[s].packId.value in t.stickerPacks
    ensures r.Some? ==> r.value == t.stickerPacks[t.stickers[s].packId.value]
  {
    if s !in t.stickers then None
    else
      match t.stickers[s].packId
      case None => None
      case Some(p) => if p in t.stickerPacks then Some(t.stickerPacks[p]) else None
  }

  /** A pack found through one of its stickers is the lookup of the sticker's pack id. */
  lemma PackOfStickerIsLookup(t: Tables, s: StickerId)
    requires s in t.stickers && t.stickers[s].packId.Some?
    ensures var p := t.stickers[s].packId.value;
      PackOfSticker(t, s) == (match Lookup(t, StickerPackKey(p)) case Some(e) => Some(e.stickerPack) case None => None)
  {
  }

  // ---------------------------------------------------------------------------------------
  // The backend and its repositories

  /** `InMemoryBackendRef`: the shared backend. The twelve entity tables are held as one
      `Tables` record; the current user and the guild index sets are fields of their own. */
  class InMemoryBackend {
    var tables: Tables
    var currentUser: Option<CurrentUserEntity>
    var guildEmojis: map<GuildId, set<EmojiId>>
    var guildMembers: map<GuildId, set<UserId>>
    var guildRoles: map<GuildId, set<RoleId>>

    /** An empty backend. */
    constructor()
      ensures tables == Tables(map[], map[], map[], map[], map[], map[], map[], map[], map[], map[], map[], map[])
      ensures currentUser == None && guildEmojis == map[] && guildMembers == map[] && guildRoles == map[]
    {
      tables := Tables(map[], map[], map[], map[], map[], map[], map[], map[], map[], map[], map[], map[]);
      currentUser := None;
      guildEmojis, guildMembers, guildRoles := map[], map[], map[];
    }

    /** `InMemoryBackend::repository` and the accessors (`attachments()`, `channels()`,
        `current_user()`, …): a repository of the given kind over this same backend. */
    method Repository(kind: Kind) returns (r: InMemoryRepository)
      ensures fresh(r) && r.backend == this && r.kind == kind
    {
      r := new InMemoryRepository(this, kind);
    }

    /** The insertion into the entity's table that `upsert` performs. */
    method Insert(e: Entity)
      modifies this
      ensures tables == Upserted(old(tables), e)
      ensures currentUser == old(currentUser) && guildEmojis == old(guildEmojis)
      ensures guildMembers == old(guildMembers) && guildRoles == old(guildRoles)
    {
      tables := Upserted(tables, e);
    }
  }

  /** `InMemoryRepository<E>`: a handle on the shared backend for one entity kind. */
  class InMemoryRepository {
    const backend: InMemoryBackend
    const kind: Kind

    constructor(backend: InMemoryBackend, kind: Kind)
      ensures this.backend == backend && this.kind == kind
    {
      this.backend := backend;
      this.kind := kind;
    }

    /** `Repository::entity`: the stored value or nothing, never an error. */
    method Entity(k: EntityKey) returns (r: Result<Option<Entity>, InMemoryBackendError>)
      requires KeyKind(k) == kind
      ensures r.Ok? && r.value == Lookup(backend.tables, k)
    {
      r := Ok(Lookup(backend.tables, k));
    }

    /** `Repository::upsert`: stores the entity under its id in its table, replacing any
        previous value, changes nothing else, and always succeeds. */
    method Upsert(e: Entity) returns (r: Result<Unit, InMemoryBackendError>)
      requires KindOf(e) == kind
      modifies backend
      ensures r == Ok(Unit)
      ensures backend.tables == Upserted(old(backend.tables), e)
      ensures backend.currentUser == old(backend.currentUser)
      ensures backend.guildEmojis == old(backend.guildEmojis)
      ensures backend.guildMembers == old(backend.guildMembers)
      ensures backend.guildRoles == old(backend.guildRoles)
    {
      backend.Insert(e);
      r := Ok(Unit);
    }

    /** `SingleEntityRepository::entity` of the current user. */
    method CurrentUser() returns (r: Result<Option<CurrentUserEntity>, InMemoryBackendError>)
      requires kind == CurrentUserKind
      ensures r == Ok(backend.currentUser)
    {
      r := Ok(backend.currentUser);
    }

    /** `GuildRepository::emoji_ids`. */
    method EmojiIds(g: GuildId) returns (r: Result<set<EmojiId>, InMemoryBackendError>)
      requires kind == GuildKind
      ensures r.Ok? && r.value == IndexOf(backend.guildEmojis, g)
    {
      r := Ok(IndexOf(backend.guildEmojis, g));
    }

    /** `GuildRepository::emojis`: the cached emojis of the guild's index. */
    method Emojis(g: GuildId) returns (r: Result<set<EmojiEntity>, InMemoryBackendError>)
      requires kind == GuildKind
      ensures r.Ok? && r.value == Present(IndexOf(backend.guildEmojis, g), backend.tables.emojis)
    {
      r := Ok(Present(IndexOf(backend.guildEmojis, g), backend.tables.emojis));
    }

    /** `GuildRepository::member_user_ids`. */
    method MemberUserIds(g: GuildId) returns (r: Result<set<UserId>, InMemoryBackendError>)
      requires kind == GuildKind
      ensures r.Ok? && r.value == IndexOf(backend.guildMembers, g)
    {
      r := Ok(IndexOf(backend.guildMembers, g));
    }

    /** `GuildRepository::members`: the cached members of the guild's index. */
    method Members(g: GuildId) returns (r: Result<set<MemberEntity>, InMemoryBackendError>)
      requires kind == GuildKind
      ensures r.Ok? && r.value == GuildMembers(backend.tables.members, IndexOf(backend.guildMembers, g), g)
    {
      r := Ok(GuildMembers(backend.tables.members, IndexOf(backend.guildMembers, g), g));
    }

    /** `GuildRepository::role_ids`. */
    method RoleIds(g: GuildId) returns (r: Result<set<RoleId>, InMemoryBackendError>)
      requires kind == GuildKind
      ensures r.Ok? && r.value == IndexOf(backend.guildRoles, g)
    {
      r := Ok(IndexOf(backend.guildRoles, g));
    }

    /** `GuildRepository::roles`: the cached roles of the guild's index. */
    method Roles(g: GuildId) returns (r: Result<set<RoleEntity>, InMemoryBackendError>)
      requires kind == GuildKind
      ensures r.Ok? && r.value == Present(IndexOf(backend.guildRoles, g), backend.tables.roles)
    {
      r := Ok(Present(IndexOf(backend.guildRoles, g), backend.tables.roles));
    }

    /** `MemberRepository::roles`. */
    method MemberRolesOf(g: GuildId, u: UserId) returns (r: Result<seq<RoleEntity>, InMemoryBackendError>)
      requires kind == MemberKind
      ensures r.Ok? && r.value == MemberRoles(backend.tables, g, u)
    {
      r := Ok(MemberRoles(backend.tables, g, u));
    }

    /** `StickerPackRepository::stickers`. */
    method Stickers(p: StickerPackId) returns (r: Result<seq<StickerEntity>, InMemoryBackendError>)
      requires kind == StickerPackKind
      ensures r.Ok? && r.value == PackStickers(backend.tables, p)
    {
      r := Ok(PackStickers(backend.tables, p));
    }

    /** `StickerRepository::sticker_pack`. */
    method StickerPackOf(s: StickerId) returns (r: Result<Option<StickerPackEntity>, InMemoryBackendError>)
      requires kind == StickerKind
      ensures r.Ok? && r.value == PackOfSticker(backend.tables, s)
    {
      r := Ok(PackOfSticker(backend.tables, s));
    }
  }

  /** All repositories share one backend: an entity upserted through one repository is
      found through any other repository of the same kind. */
  method SharedBackend(b: InMemoryBackend, e: Entity) returns (found: Result<Option<Entity>, InMemoryBackendError>)
    modifies b
    ensures found == Ok(Some(e))
  {
    var writer := b.Repository(KindOf(e));
    var reader := b.Repository(KindOf(e));
    var _ := writer.Upsert(e);
    UpsertThenLookup(old(b.tables), e);
    found := reader.Entity(Id(e));
  }
}
