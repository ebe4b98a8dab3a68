/** System messages (cloud_functions/functions/src/system_messages.ts): the six kinds of
    group event, their string tags, and the record appended to a chat's messages. */
module SystemMessages {
  import opened Wrappers
  import opened Models
  import opened Firestore

  /** `SYSTEM_MESSAGE` */
  datatype SystemMessageType =
    | GroupCreated
    | GroupRenamed
    | GroupImageUpdated
    | GroupMemberAdded
    | GroupMemberRemoved
    | GroupMemberLeft

  /** The string value of each `SYSTEM_MESSAGE` member. */
  function Tag(t: SystemMessageType): (tag: string)
    ensures tag != ""
    ensures |tag| >= 13 && tag[..6] == "group_"
  {
    match t
    case GroupCreated => "group_created"
    case GroupRenamed => "group_renamed"
    case GroupImageUpdated => "group_image_updated"
    case GroupMemberAdded => "group_member_added"
    case GroupMemberRemoved => "group_member_removed"
    case GroupMemberLeft => "group_member_left"
  }

  /** Distinct kinds have distinct tags, so a stored tag names its kind. */
  lemma TagsAreDistinct(a: SystemMessageType, b: SystemMessageType)
    ensures Tag(a) == Tag(b) <==> a == b
  {
  }

  /** The message record: `{systemMessageType, data, createdAt: floor(now)}`. */
  function Record(t: SystemMessageType, data: SystemData, now: int): (r: SystemRecord)
    ensures r.systemMessageType != ""
    ensures r.createdAt == now
    ensures forall u: SystemMessageType :: r.systemMessageType == Tag(u) ==> u == t
  {
    var r := SystemRecord(Tag(t), data, now);
    forall u: SystemMessageType | r.systemMessageType == Tag(u)
      ensures u == t
    {
      TagsAreDistinct(u, t);
    }
    r
  }

  /** A field of `data` reads as `undefined`: the group name or image of a document that
      has none. The Admin SDK rejects such a document, because the app initialises
      Firestore without `ignoreUndefinedProperties`. */
  predicate HoldsUndefined(data: SystemData) {
    match data
    case GroupNameData(name) => name.None?
    case NewGroupNameData(name) => name.None?
    case NewGroupImageUrlData(url) => url.None?
    case _ => false
  }

  /** `db.collection(`chats/${chatId}/messages`).add(record)` for a record that can be
      stored: the chat's messages get the record at the end; nothing else changes. */
  function AddSystemMessage(s: Store, chatId: ChatId, t: SystemMessageType, data: SystemData, now: int)
    : (s': Store)
    ensures SystemMessagesOf(s', chatId) == SystemMessagesOf(s, chatId) + [Record(t, data, now)]
    ensures forall c :: c != chatId ==> SystemMessagesOf(s', c) == SystemMessagesOf(s, c)
    ensures s' == s.(systemMessages := s'.systemMessages)
  {
    s.(systemMessages := s.systemMessages[chatId := SystemMessagesOf(s, chatId) + [Record(t, data, now)]])
  }

  /** `createSystemMessage(chatId, type, data)`: adds one document to
      `chats/{chatId}/messages`. When `data` holds `undefined`, `add()` rejects and
      nothing is written. */
  function CreateSystemMessage(s: Store, chatId: ChatId, t: SystemMessageType, data: SystemData, now: int)
    : (r: (Store, Outcome))
    ensures r.1 == Aborted <==> HoldsUndefined(data)
    ensures r.0 == if r.1 == Aborted then s else AddSystemMessage(s, chatId, t, data, now)
  {
    if HoldsUndefined(data) then (s, Aborted)
    else (AddSystemMessage(s, chatId, t, data, now), Completed)
  }
}
