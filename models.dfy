/** The documents the cloud functions read and write (cloud_functions/functions/src/models.ts),
    with the fields the triggers use. A document reference is given by the id of the
    document it points to. */
module Models {
  import opened Wrappers

  /** Id of a `users/{id}` document (the username). */
  type UserId = string
  /** Id of a `chats/{id}` document. */
  type ChatId = string

  /** No member is listed twice. */
  predicate Distinct(members: seq<UserId>) {
    forall i, j :: 0 <= i < j < |members| ==> members[i] != members[j]
  }

  /** `UPDATE_FROM.LEAVE_GROUP`: the marker `leaveGroup` leaves in `metadata.updatedFrom`. */
  const LEAVE_GROUP: string := "leaveGroup"

  /** `chats/{chatId}`. A `None` field is missing from the document and reads as
      `undefined`. `createdBy` is missing on private chats, which the client writes
      under the misspelt key `createBy`; `updatedFrom` is `metadata.updatedFrom`. */
  datatype Chat = Chat(
    isGroup: bool,
    groupName: Option<string>,
    groupImageUrl: Option<string>,
    members: seq<UserId>,
    createdBy: Option<UserId>,
    updatedFrom: Option<string>)

  /** `userChats/{userId}/chats/{chatId}`: one user's view of one chat. The cloud
      functions write `createdAt` in milliseconds; `updatedAt` is missing on documents
      written by `createUserChat`. */
  datatype UserChat = UserChat(
    chat: ChatId,
    unreadCount: int,
    isStarred: bool,
    createdAt: Option<int>,
    updatedAt: Option<int>)

  /** `users/{id}`: a profile. `uid` is the Auth user it belongs to. */
  datatype UserDoc = UserDoc(
    id: UserId,
    uid: Option<string>,
    username: Option<string>,
    firstName: string,
    lastName: Option<string>,
    photoUrl: Option<string>)

  /** `users/{userId}/tokens/{id}`: a push token; `createdAt` may be missing. */
  datatype PushToken = PushToken(id: string, createdAt: Option<int>)

  /** `chats/{chatId}/messages/{id}` as the client writes it, with the flags the client
      transactions update. */
  datatype MessageDoc = MessageDoc(isRead: bool, isPinned: bool)

  /** `chats/{chatId}/pinnedMessage/{messageId}`: `message` is the pinned message's id. */
  datatype PinnedRecord = PinnedRecord(message: string, createdAt: int)

  /** `chats/{chatId}/files/{auto id}` */
  datatype FileRecord = FileRecord(message: string, url: string, isMedia: bool, createdAt: int)

  /** `chats/{chatId}/links/{auto id}` */
  datatype LinkRecord = LinkRecord(message: string, url: string, createdAt: int)

  /** The `data` object of a system message, one shape per message type. */
  datatype SystemData =
    | GroupNameData(groupName: Option<string>)
    | NewGroupNameData(newGroupName: Option<string>)
    | NewGroupImageUrlData(newGroupImageUrl: Option<string>)
    | NewMemberData(newMemberId: UserId)
    | RemovedMemberData(removedMemberId: UserId)
    | LeftMemberData(leftMemberId: UserId)

  /** A system message document `{systemMessageType, data, createdAt}`. */
  datatype SystemRecord = SystemRecord(systemMessageType: string, data: SystemData, createdAt: int)
}
