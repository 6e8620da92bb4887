/**
 * `resolveRawEventToEvent`: the pure dispatch from a decoded raw event to the
 * domain event handed to the event processor.
 */
module EventMapper {
  import opened Wrappers
  import opened RawEvents

  /** The domain event classes the dispatch can produce. */
  datatype EventKind =
    | NormalGroupMessage | AnonymousGroupMessage | NoticeGroupMessage | DefaultGroupMessage
    | FriendMessage | GroupPrivateMessage | DefaultPrivateMessage
    | Lifecycle | Heartbeat
    | FriendRequest | GroupRequest
    | FriendAdd | FriendRecall | GroupAdmin | GroupBan | GroupMemberIncrease | GroupMemberDecrease
    | GroupRecall | GroupUpload
    | Honor | LuckyKing | BotSelfPoke | MemberPoke
    | Unknown
    | Unsupported

  /**
   * An event pushed to the event processor: a mapped frame, carrying the raw
   * text and the raw event it came from, or the one-time bot-started event.
   */
  datatype Event =
    | Mapped(kind: EventKind, raw: string, source: RawEvent)
    | BotStarted(botId: string)

  /** The post type a domain event class belongs to; `Unsupported` belongs to none. */
  function KindCategory(kind: EventKind): Option<Category> {
    match kind
    case NormalGroupMessage | AnonymousGroupMessage | NoticeGroupMessage | DefaultGroupMessage
       | FriendMessage | GroupPrivateMessage | DefaultPrivateMessage => Some(MessageCategory)
    case Lifecycle | Heartbeat => Some(MetaCategory)
    case FriendRequest | GroupRequest => Some(RequestCategory)
    case Unknown => Some(UnknownCategory)
    case Unsupported => None
    case _ => Some(NoticeCategory)
  }

  predicate IsGroupMessageKind(kind: EventKind) {
    kind.NormalGroupMessage? || kind.AnonymousGroupMessage? || kind.NoticeGroupMessage? || kind.DefaultGroupMessage?
  }

  predicate IsPrivateMessageKind(kind: EventKind) {
    kind.FriendMessage? || kind.GroupPrivateMessage? || kind.DefaultPrivateMessage?
  }

  /** The raw events the dispatch has no rule for. */
  predicate IsUnsupported(event: RawEvent) {
    || event.OtherRawEvent?
    || (event.RawNotifyEvent? && event.subType !in {NOTIFY_SUB_TYPE_HONOR, NOTIFY_SUB_TYPE_LUCKY_KING, NOTIFY_SUB_TYPE_POKE})
  }

  /** A poke whose target is the bot that received it. */
  predicate IsSelfPoke(event: RawEvent) {
    event.RawNotifyEvent? && event.subType == NOTIFY_SUB_TYPE_POKE && event.targetId == Some(event.selfId)
  }

  function GroupMessageKind(subType: string): (kind: EventKind)
    ensures IsGroupMessageKind(kind)
    ensures kind.DefaultGroupMessage? <==> subType !in {GROUP_SUB_TYPE_NORMAL, GROUP_SUB_TYPE_ANONYMOUS, GROUP_SUB_TYPE_NOTICE}
  {
    if subType == GROUP_SUB_TYPE_NORMAL then NormalGroupMessage
    else if subType == GROUP_SUB_TYPE_ANONYMOUS then AnonymousGroupMessage
    else if subType == GROUP_SUB_TYPE_NOTICE then NoticeGroupMessage
    else DefaultGroupMessage
  }

  function PrivateMessageKind(subType: string): (kind: EventKind)
    ensures IsPrivateMessageKind(kind)
    ensures kind.DefaultPrivateMessage? <==> subType !in {PRIVATE_SUB_TYPE_FRIEND, PRIVATE_SUB_TYPE_GROUP}
  {
    if subType == PRIVATE_SUB_TYPE_FRIEND then FriendMessage
    else if subType == PRIVATE_SUB_TYPE_GROUP then GroupPrivateMessage
    else DefaultPrivateMessage
  }

  function NotifyKind(subType: string, selfId: int, targetId: Option<int>): EventKind {
    if subType == NOTIFY_SUB_TYPE_HONOR then Honor
    else if subType == NOTIFY_SUB_TYPE_LUCKY_KING then LuckyKing
    else if subType == NOTIFY_SUB_TYPE_POKE then
      (if targetId == Some(selfId) then BotSelfPoke else MemberPoke)
    else Unsupported
  }

  /**
   * The raw event class each domain event class is built from, read from the
   * domain side: an unsupported event wraps an unclassified raw event or a
   * notify event with an undeclared subtype.
   */
  predicate BuiltFrom(kind: EventKind, event: RawEvent) {
    match kind
    case NormalGroupMessage | AnonymousGroupMessage | NoticeGroupMessage | DefaultGroupMessage => event.RawGroupMessageEvent?
    case FriendMessage | GroupPrivateMessage | DefaultPrivateMessage => event.RawPrivateMessageEvent?
    case Lifecycle => event.RawLifecycleEvent?
    case Heartbeat => event.RawHeartbeatEvent?
    case FriendRequest => event.RawFriendRequestEvent?
    case GroupRequest => event.RawGroupRequestEvent?
    case FriendAdd => event.RawFriendAddEvent?
    case FriendRecall => event.RawFriendRecallEvent?
    case GroupAdmin => event.RawGroupAdminEvent?
    case GroupBan => event.RawGroupBanEvent?
    case GroupMemberIncrease => event.RawGroupIncreaseEvent?
    case GroupMemberDecrease => event.RawGroupDecreaseEvent?
    case GroupRecall => event.RawGroupRecallEvent?
    case GroupUpload => event.RawGroupUploadEvent?
    case Honor | LuckyKing | BotSelfPoke | MemberPoke => event.RawNotifyEvent?
    case Unknown => event.UnknownEvent?
    case Unsupported => event.OtherRawEvent? || event.RawNotifyEvent?
  }

  /** The domain event class of each raw event class, as the dispatch in `resolveRawEventToEvent` picks it. */
  function KindOf(event: RawEvent): EventKind {
    match event
    case RawGroupMessageEvent(subType) => GroupMessageKind(subType)
    case RawPrivateMessageEvent(subType) => PrivateMessageKind(subType)
    case RawLifecycleEvent => Lifecycle
    case RawHeartbeatEvent => Heartbeat
    case RawFriendRequestEvent => FriendRequest
    case RawGroupRequestEvent => GroupRequest
    case RawFriendAddEvent => FriendAdd
    case RawFriendRecallEvent => FriendRecall
    case RawGroupAdminEvent => GroupAdmin
    case RawGroupBanEvent => GroupBan
    case RawGroupIncreaseEvent(_) => GroupMemberIncrease
    case RawGroupDecreaseEvent(_) => GroupMemberDecrease
    case RawGroupRecallEvent => GroupRecall
    case RawGroupUploadEvent => GroupUpload
    case RawNotifyEvent(subType, selfId, targetId) => NotifyKind(subType, selfId, targetId)
    case UnknownEvent(_, _, _, _) => Unknown
    case OtherRawEvent(_, _) => Unsupported
  }

  /** `resolveRawEventToEvent(raw, event)`. */
  function ResolveRawEventToEvent(raw: string, event: RawEvent): (r: Event)
    // every result is a mapped event carrying the raw text and the raw event
    ensures r.Mapped? && r.raw == raw && r.source == event
    // every domain class is built from its own raw class
    ensures BuiltFrom(r.kind, event)
    // unknown and unsupported, in both directions
    ensures r.kind.Unknown? <==> event.UnknownEvent?
    ensures r.kind.Unsupported? <==> IsUnsupported(event)
    // a supported event keeps its post type
    ensures !r.kind.Unsupported? ==> KindCategory(r.kind) == Some(CategoryOf(event))
    // message events go to message classes of their own kind
    ensures event.RawGroupMessageEvent? <==> IsGroupMessageKind(r.kind)
    ensures event.RawPrivateMessageEvent? <==> IsPrivateMessageKind(r.kind)
    // self poke versus member poke
    ensures r.kind.BotSelfPoke? <==> IsSelfPoke(event)
    ensures r.kind.MemberPoke? <==> event.RawNotifyEvent? && event.subType == NOTIFY_SUB_TYPE_POKE && !IsSelfPoke(event)
  {
    Mapped(KindOf(event), raw, event)
  }

  /** Group messages: each declared subtype to its own class, any other to the default class. */
  lemma GroupMessageDispatch(raw: string, subType: string)
    ensures var k := ResolveRawEventToEvent(raw, RawGroupMessageEvent(subType)).kind;
      && (subType == GROUP_SUB_TYPE_NORMAL <==> k == NormalGroupMessage)
      && (subType == GROUP_SUB_TYPE_ANONYMOUS <==> k == AnonymousGroupMessage)
      && (subType == GROUP_SUB_TYPE_NOTICE <==> k == NoticeGroupMessage)
  {
  }

  /** Private messages: friend and group to their own classes, any other to the default class. */
  lemma PrivateMessageDispatch(raw: string, subType: string)
    ensures var k := ResolveRawEventToEvent(raw, RawPrivateMessageEvent(subType)).kind;
      && (subType == PRIVATE_SUB_TYPE_FRIEND <==> k == FriendMessage)
      && (subType == PRIVATE_SUB_TYPE_GROUP <==> k == GroupPrivateMessage)
  {
  }

  /** Notify events: honor and lucky king to their classes; a poke with no target is a member poke. */
  lemma NotifyDispatch(raw: string, subType: string, selfId: int, targetId: Option<int>)
    ensures var k := ResolveRawEventToEvent(raw, RawNotifyEvent(subType, selfId, targetId)).kind;
      && (subType == NOTIFY_SUB_TYPE_HONOR <==> k == Honor)
      && (subType == NOTIFY_SUB_TYPE_LUCKY_KING <==> k == LuckyKing)
      && (subType == NOTIFY_SUB_TYPE_POKE && targetId.None? ==> k == MemberPoke)
  {
  }

  /** The two member-change notices map to their own classes and keep all their fields, the optional operator included. */
  lemma MemberChangeDispatch(raw: string, change: MemberChange)
    ensures ResolveRawEventToEvent(raw, RawGroupIncreaseEvent(change)) == Mapped(GroupMemberIncrease, raw, RawGroupIncreaseEvent(change))
    ensures ResolveRawEventToEvent(raw, RawGroupDecreaseEvent(change)) == Mapped(GroupMemberDecrease, raw, RawGroupDecreaseEvent(change))
  {
  }
}
