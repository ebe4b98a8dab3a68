/** The entities the client's stores decode with (src/services/entities.ts): the userChat,
    chat and profile decoders, and the aggregates the chat store keeps. */
module ServiceEntities {
  import opened Wrappers
  import opened Js
  import ModelEntity
  import ModelEntities
  import ServiceEntity

  /** `UserChatEntity.transformFromFirestore`: `chat` is null when missing, `unreadCount`
      is 0 when missing or not a number, `isStarred` is false when falsy. Unlike the
      models' decoder it produces no `updatedAt`. */
  function UserChatFrom(data: Obj): (r: Obj)
    ensures r.Keys == {"chat", "unreadCount", "isStarred"}
    ensures r["chat"] == if Truthy(Get(data, "chat")) then data["chat"] else Null
    ensures r["unreadCount"] == Num(NumberOrZero(Get(data, "unreadCount")))
    ensures r["isStarred"] == Bool(Truthy(Get(data, "isStarred")))
  {
    map[
      "chat" := Or(Get(data, "chat"), Null),
      "unreadCount" := Num(NumberOrZero(Get(data, "unreadCount"))),
      "isStarred" := Bool(Truthy(Get(data, "isStarred")))]
  }

  /** A userChat the store decodes never has an `updatedAt`, whatever the document
      holds, and its id is the document's id. */
  lemma DecodedUserChatHasNoUpdatedAt(snap: ServiceEntity.Snapshot)
    ensures var r := ServiceEntity.FromFirestore(UserChatFrom, snap);
      "updatedAt" !in r && Get(r, "id") == Str(snap.id)
  {
  }

  /** `ChatEntity.transformFromFirestore` is the same transform as the models' one. A
      decoded chat's members default to an empty array, its `isGroup` is a boolean, and
      its `createdAt` is the document's create time. */
  lemma DecodedChat(snap: ServiceEntity.Snapshot)
    ensures var r := ServiceEntity.FromFirestore(ModelEntities.ChatFrom, snap);
      && Get(r, "id") == Str(snap.id)
      && Get(r, "createdAt") == Num(snap.createTimeSeconds)
      && Get(r, "isGroup") == Bool(Truthy(Get(snap.data, "isGroup")))
      && Get(r, "members") == Or(Get(snap.data, "members"), Arr([]))
      && ("groupName" !in snap.data ==> Get(r, "groupName") == Str("undefined"))
  {
    var t := ModelEntities.ChatFrom(snap.data);
    assert Get(t, "members") == t["members"];
    assert Get(t, "isGroup") == t["isGroup"];
    assert Get(t, "groupName") == t["groupName"];
  }

  /** `UserProfileEntity.transformFromFirestore`: the models' profile decoder without
      the `uid`. */
  function UserProfileFrom(data: Obj): (r: Obj)
    ensures r.Keys == {"username", "email", "firstName", "lastName", "photoUrl", "isOnline"}
    ensures forall k :: k in r ==> r[k] == ModelEntities.UserProfileFrom(data)[k]
    ensures r["lastName"].Undefined? <==> !Truthy(Get(data, "lastName"))
    ensures r["photoUrl"].Undefined? <==> !Truthy(Get(data, "photoUrl"))
  {
    map[
      "username" := Str(ToStr(Get(data, "username"))),
      "email" := Str(ToStr(Get(data, "email"))),
      "firstName" := Str(ToStr(Get(data, "firstName"))),
      "lastName" := ModelEntities.StringIfTruthy(Get(data, "lastName")),
      "photoUrl" := ModelEntities.StringIfTruthy(Get(data, "photoUrl")),
      "isOnline" := Bool(Truthy(Get(data, "isOnline")))]
  }

  /** `ChatAggregate`: a chat, the user's userChat of it and, for a private chat, what
      the users store gave for the other member's profile. The aggregate itself has no
      `id`. */
  datatype ChatAggregate = ChatAggregate(otherUserProfile: Option<Value>, userChat: Obj, chat: Obj)

  /** `new PrivateChatAggregate(chat, otherUserProfile, userChat)` stores its arguments. */
  function PrivateChatAggregate(chat: Obj, otherUserProfile: Value, userChat: Obj): (r: ChatAggregate)
    ensures r.chat == chat && r.otherUserProfile == Some(otherUserProfile) && r.userChat == userChat
  {
    ChatAggregate(Some(otherUserProfile), userChat, chat)
  }

  /** `new GroupChatAggregate(chat, userChat)` stores its arguments. */
  function GroupChatAggregate(chat: Obj, userChat: Obj): (r: ChatAggregate)
    ensures r.chat == chat && r.otherUserProfile.None? && r.userChat == userChat
  {
    ChatAggregate(None, userChat, chat)
  }
}
