/**
 * The raw OneBot 11 events the typed decoder produces, reduced to the fields
 * the event mapper dispatches on. `RawGroupIncreaseEvent` and
 * `RawGroupDecreaseEvent` keep all their fields.
 */
module RawEvents {
  import opened Wrappers

  /** Sub-type values of group message events (OneBot 11 message events). */
  const GROUP_SUB_TYPE_NORMAL := "normal"
  const GROUP_SUB_TYPE_ANONYMOUS := "anonymous"
  const GROUP_SUB_TYPE_NOTICE := "notice"

  /** Sub-type values of private message events. */
  const PRIVATE_SUB_TYPE_FRIEND := "friend"
  const PRIVATE_SUB_TYPE_GROUP := "group"

  /** Sub-type values of notify notice events. */
  const NOTIFY_SUB_TYPE_HONOR := "honor"
  const NOTIFY_SUB_TYPE_LUCKY_KING := "lucky_king"
  const NOTIFY_SUB_TYPE_POKE := "poke"

  /** The fields shared by the group-member increase and decrease notices. */
  datatype MemberChange = MemberChange(
    time: int,
    selfId: int,
    postType: string,
    noticeType: string,
    subType: string,
    groupId: int,
    operatorId: Option<int>,  // optional on the wire, null when absent
    userId: int)

  datatype RawEvent =
    | RawGroupMessageEvent(subType: string)
    | RawPrivateMessageEvent(subType: string)
    | RawLifecycleEvent
    | RawHeartbeatEvent
    | RawFriendRequestEvent
    | RawGroupRequestEvent
    | RawFriendAddEvent
    | RawFriendRecallEvent
    | RawGroupAdminEvent
    | RawGroupBanEvent
    | RawGroupIncreaseEvent(change: MemberChange)
    | RawGroupDecreaseEvent(change: MemberChange)
    | RawGroupRecallEvent
    | RawGroupUploadEvent
    | RawNotifyEvent(subType: string, selfId: int, targetId: Option<int>)
      /** The decoder's fallback for a frame with no matching schema. */
    | UnknownEvent(time: int, selfId: int, postType: string, raw: string)
      /** Any other raw event class the typed decoder may produce. */
    | OtherRawEvent(postType: string, subType: string)

  /** The OneBot 11 post types the declared raw events belong to. */
  datatype Category = MessageCategory | MetaCategory | RequestCategory | NoticeCategory | UnknownCategory | OtherCategory

  function CategoryOf(event: RawEvent): Category {
    match event
    case RawGroupMessageEvent(_) | RawPrivateMessageEvent(_) => MessageCategory
    case RawLifecycleEvent | RawHeartbeatEvent => MetaCategory
    case RawFriendRequestEvent | RawGroupRequestEvent => RequestCategory
    case UnknownEvent(_, _, _, _) => UnknownCategory
    case OtherRawEvent(_, _) => OtherCategory
    case _ => NoticeCategory
  }
}
