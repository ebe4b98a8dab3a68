/** The client's typed models (src/models/entities.ts): for each entity, the rules that
    turn raw document data into the model's fields (`transformFromFirestore`) and back
    (`transformToFirestore`), and the two constructors that copy fields. */
module ModelEntities {
  import opened Wrappers
  import opened Js
  import ModelEntity

  /** `String(v) || undefined`: the string form of `v`, or undefined when that is
      empty. A missing value has the string form "undefined". */
  function StringOrUndefined(v: Value): (r: Value)
    ensures r.Undefined? <==> ToStr(v) == ""
    ensures r.Str? ==> r.s == ToStr(v)
    ensures v.Undefined? ==> r == Str("undefined")
  {
    var s := ToStr(v);
    if s == "" then Undefined else Str(s)
  }

  /** `v ? String(v) : undefined` */
  function StringIfTruthy(v: Value): (r: Value)
    ensures r.Undefined? <==> !Truthy(v)
    ensures Truthy(v) ==> r == Str(ToStr(v))
  {
    if Truthy(v) then Str(ToStr(v)) else Undefined
  }

  /** `UserChatEntity.transformFromFirestore`: the counters and timestamps become 0
      when missing or not numbers, `isStarred` is false when falsy, `chat` is null when
      missing. */
  function UserChatFrom(data: Obj): (r: Obj)
    ensures r.Keys == {"chat", "unreadCount", "isStarred", "lastReadMessageTimestamp", "updatedAt"}
    ensures r["chat"] == if Truthy(Get(data, "chat")) then data["chat"] else Null
    ensures r["unreadCount"] == Num(NumberOrZero(Get(data, "unreadCount")))
    ensures r["isStarred"] == Bool(Truthy(Get(data, "isStarred")))
    ensures r["lastReadMessageTimestamp"] == Num(NumberOrZero(Get(data, "lastReadMessageTimestamp")))
    ensures r["updatedAt"] == Num(NumberOrZero(Get(data, "updatedAt")))
    ensures ToNumber(Get(data, "updatedAt")).NaN? ==> r["updatedAt"] == Num(0)
  {
    map[
      "chat" := Or(Get(data, "chat"), Null),
      "unreadCount" := Num(NumberOrZero(Get(data, "unreadCount"))),
      "isStarred" := Bool(Truthy(Get(data, "isStarred"))),
      "lastReadMessageTimestamp" := Num(NumberOrZero(Get(data, "lastReadMessageTimestamp"))),
      "updatedAt" := Num(NumberOrZero(Get(data, "updatedAt")))]
  }

  /** Decoding an already decoded userChat changes nothing. */
  lemma UserChatFromIsIdempotent(data: Obj)
    ensures UserChatFrom(UserChatFrom(data)) == UserChatFrom(data)
  {
    var r := UserChatFrom(data);
    assert Get(r, "chat") == r["chat"];
    assert Truthy(r["chat"]) <==> Truthy(Get(data, "chat"));
  }

  /** `ChatEntity.transformFromFirestore`: `isGroup` is coerced to a boolean, `messages`
      and `members` default to empty arrays, and `groupName`/`groupImageUrl` are
      `String(raw) || undefined`. */
  function ChatFrom(data: Obj): (r: Obj)
    ensures r.Keys == {"isGroup", "groupName", "groupImageUrl", "messages", "members", "createdBy"}
    ensures r["isGroup"] == Bool(Truthy(Get(data, "isGroup")))
    ensures r["groupName"] == StringOrUndefined(Get(data, "groupName"))
    ensures r["groupImageUrl"] == StringOrUndefined(Get(data, "groupImageUrl"))
    ensures r["members"] == if Truthy(Get(data, "members")) then data["members"] else Arr([])
    ensures r["messages"] == if Truthy(Get(data, "messages")) then data["messages"] else Arr([])
    ensures r["createdBy"] == Get(data, "createdBy")
  {
    map[
      "isGroup" := Bool(Truthy(Get(data, "isGroup"))),
      "groupName" := StringOrUndefined(Get(data, "groupName")),
      "groupImageUrl" := StringOrUndefined(Get(data, "groupImageUrl")),
      "messages" := Or(Get(data, "messages"), Arr([])),
      "members" := Or(Get(data, "members"), Arr([])),
      "createdBy" := Get(data, "createdBy")]
  }

  /** As written, a chat document without a group name (every private chat) decodes
      with the group name "undefined" rather than without one. */
  lemma MissingGroupNameBecomesText(data: Obj)
    requires "groupName" !in data
    ensures ChatFrom(data)["groupName"] == Str("undefined")
  {
  }

  /** `ChatEntity.transformFromFirestore` with the fallback the `|| undefined` aims at:
      a missing or empty group name or image stays undefined. */
  function ChatFromIntended(data: Obj): (r: Obj)
    ensures r.Keys == ChatFrom(data).Keys
    ensures forall k :: k in r && k != "groupName" && k != "groupImageUrl" ==> r[k] == ChatFrom(data)[k]
    ensures !Truthy(Get(data, "groupName")) ==> r["groupName"] == Undefined
    ensures !Truthy(Get(data, "groupImageUrl")) ==> r["groupImageUrl"] == Undefined
    ensures Get(data, "groupName").Str? ==> r["groupName"] == StringOrUndefined(Get(data, "groupName"))
  {
    var name := if Truthy(Get(data, "groupName")) then StringOrUndefined(Get(data, "groupName")) else Undefined;
    var image := if Truthy(Get(data, "groupImageUrl")) then StringOrUndefined(Get(data, "groupImageUrl")) else Undefined;
    ChatFrom(data)["groupName" := name]["groupImageUrl" := image]
  }

  /** With the intended fallback, a chat without a group name decodes without one, and
      decoding a decoded chat changes nothing. */
  lemma IntendedChatFromIsIdempotent(data: Obj)
    ensures "groupName" !in data ==> ChatFromIntended(data)["groupName"] == Undefined
    ensures ChatFromIntended(ChatFromIntended(data)) == ChatFromIntended(data)
  {
    var r := ChatFromIntended(data);
    forall k | k in r ensures k in ChatFromIntended(r) && ChatFromIntended(r)[k] == r[k] {
      IntendedFieldIsStable(data, k);
    }
  }

  lemma IntendedFieldIsStable(data: Obj, k: string)
    requires k in ChatFromIntended(data)
    ensures var r := ChatFromIntended(data);
      k in ChatFromIntended(r) && ChatFromIntended(r)[k] == r[k]
  {
    var r := ChatFromIntended(data);
    assert Get(r, k) == r[k];
    if k == "groupName" || k == "groupImageUrl" {
      if Truthy(r[k]) { assert r[k].Str?; }
    } else if k == "members" || k == "messages" {
      assert Truthy(r[k]);
    } else if k == "isGroup" {
      assert r[k].Bool?;
    }
  }

  /** The six fields the `ChatEntity` constructor copies. */
  const CHAT_FIELDS: set<string> := {"id", "isGroup", "groupName", "groupImageUrl", "members", "createdBy"}

  /** `new ChatEntity(data)`: without an argument no field is set; otherwise exactly the
      six fields are copied from the argument. */
  function NewChatEntity(data: Option<Obj>): (r: Obj)
    ensures data.None? ==> r == map[]
    ensures data.Some? ==> r.Keys == CHAT_FIELDS && forall k :: k in r ==> r[k] == Get(data.value, k)
  {
    match data
    case None => map[]
    case Some(d) => map k | k in CHAT_FIELDS :: Get(d, k)
  }

  /** `UserProfileEntity.transformFromFirestore`: `lastName` and `photoUrl` are
      undefined when falsy and otherwise stringified, the other strings are stringified,
      and `isOnline` is coerced to a boolean. */
  function UserProfileFrom(data: Obj): (r: Obj)
    ensures r.Keys == {"uid", "username", "email", "firstName", "lastName", "photoUrl", "isOnline"}
    ensures forall k :: k in {"uid", "username", "email", "firstName"} ==> r[k] == Str(ToStr(Get(data, k)))
    ensures r["lastName"].Undefined? <==> !Truthy(Get(data, "lastName"))
    ensures r["photoUrl"].Undefined? <==> !Truthy(Get(data, "photoUrl"))
    ensures Truthy(Get(data, "lastName")) ==> r["lastName"] == Str(ToStr(data["lastName"]))
    ensures Truthy(Get(data, "photoUrl")) ==> r["photoUrl"] == Str(ToStr(data["photoUrl"]))
    ensures r["isOnline"] == Bool(Truthy(Get(data, "isOnline")))
  {
    map[
      "uid" := Str(ToStr(Get(data, "uid"))),
      "username" := Str(ToStr(Get(data, "username"))),
      "email" := Str(ToStr(Get(data, "email"))),
      "firstName" := Str(ToStr(Get(data, "firstName"))),
      "lastName" := StringIfTruthy(Get(data, "lastName")),
      "photoUrl" := StringIfTruthy(Get(data, "photoUrl")),
      "isOnline" := Bool(Truthy(Get(data, "isOnline")))]
  }

  /** The fields of a message model. */
  const MESSAGE_FIELDS: set<string> :=
    {"text", "fromUser", "attachmentsUrl", "isRead", "readBy", "isPinned", "createdAt", "systemMessageType", "data"}

  /** `new MessageEntity(data)`: the nine fields copied, with `isRead` and `isPinned`
      false and `readBy` empty when falsy. */
  function NewMessageEntity(data: Obj): (r: Obj)
    ensures r.Keys == MESSAGE_FIELDS
    ensures forall k :: k in r && k != "isRead" && k != "readBy" && k != "isPinned" ==> r[k] == Get(data, k)
    ensures r["isRead"] == if Truthy(Get(data, "isRead")) then data["isRead"] else Bool(false)
    ensures r["readBy"] == if Truthy(Get(data, "readBy")) then data["readBy"] else Arr([])
    ensures r["isPinned"] == if Truthy(Get(data, "isPinned")) then data["isPinned"] else Bool(false)
  {
    map k | k in MESSAGE_FIELDS ::
      if k == "isRead" then Or(Get(data, k), Bool(false))
      else if k == "readBy" then Or(Get(data, k), Arr([]))
      else if k == "isPinned" then Or(Get(data, k), Bool(false))
      else Get(data, k)
  }

  /** `MessageEntity.transformFromFirestore`: `readBy` and `attachmentsUrl` default to
      empty arrays, the flags are coerced to booleans, `createdAt` is `parseInt` of the
      stored value, and `systemMessageType`/`data` are undefined when falsy. */
  function MessageFrom(data: Obj): (r: Obj)
    ensures r.Keys == MESSAGE_FIELDS
    ensures Get(r, "text") == Str(ToStr(Get(data, "text")))
    ensures Get(r, "fromUser") == Get(data, "fromUser")
    ensures Get(r, "isRead") == Bool(Truthy(Get(data, "isRead"))) && Get(r, "isPinned") == Bool(Truthy(Get(data, "isPinned")))
    ensures Get(r, "readBy") == Or(Get(data, "readBy"), Arr([]))
    ensures Get(r, "attachmentsUrl") == Or(Get(data, "attachmentsUrl"), Arr([]))
    ensures Get(r, "createdAt") == ParseInt(Get(data, "createdAt"))
    ensures Get(r, "systemMessageType") == Or(Get(data, "systemMessageType"), Undefined)
    ensures Get(r, "data") == Or(Get(data, "data"), Undefined)
  {
    MessageFieldsFrom(data)["createdAt" := ParseInt(Get(data, "createdAt"))]
  }

  /** The fields of `MessageEntity.transformFromFirestore` other than `createdAt`. */
  function MessageFieldsFrom(data: Obj): (r: Obj)
    ensures r.Keys == MESSAGE_FIELDS - {"createdAt"}
    ensures Get(r, "text") == Str(ToStr(Get(data, "text")))
    ensures Get(r, "fromUser") == Get(data, "fromUser")
    ensures Get(r, "isRead") == Bool(Truthy(Get(data, "isRead"))) && Get(r, "isPinned") == Bool(Truthy(Get(data, "isPinned")))
    ensures Get(r, "readBy") == Or(Get(data, "readBy"), Arr([]))
    ensures Get(r, "attachmentsUrl") == Or(Get(data, "attachmentsUrl"), Arr([]))
    ensures Get(r, "systemMessageType") == Or(Get(data, "systemMessageType"), Undefined)
    ensures Get(r, "data") == Or(Get(data, "data"), Undefined)
  {
    map[
      "text" := Str(ToStr(Get(data, "text"))),
      "fromUser" := Get(data, "fromUser"),
      "isRead" := Bool(Truthy(Get(data, "isRead"))),
      "readBy" := Or(Get(data, "readBy"), Arr([])),
      "isPinned" := Bool(Truthy(Get(data, "isPinned"))),
      "attachmentsUrl" := Or(Get(data, "attachmentsUrl"), Arr([])),
      "systemMessageType" := Or(Get(data, "systemMessageType"), Undefined),
      "data" := Or(Get(data, "data"), Undefined)]
  }

  /** `MessageEntity.transformToFirestore`: only the text, the sender, the pinned flag
      (undefined unless truthy), the attachments and `createdAt` are written. */
  function MessageTo(model: Obj): (r: Obj)
    ensures r.Keys == {"text", "fromUser", "isPinned", "attachmentsUrl", "createdAt"}
    ensures forall k :: k in r && k != "isPinned" ==> r[k] == Get(model, k)
    ensures r["isPinned"] == if Truthy(Get(model, "isPinned")) then model["isPinned"] else Undefined
  {
    map[
      "text" := Get(model, "text"),
      "fromUser" := Get(model, "fromUser"),
      "isPinned" := if Truthy(Get(model, "isPinned")) then Get(model, "isPinned") else Undefined,
      "attachmentsUrl" := Get(model, "attachmentsUrl"),
      "createdAt" := Get(model, "createdAt")]
  }

  /** A message model encoded by `toFirestore` and decoded by `fromFirestore` keeps its
      text, sender, pinned flag and integral creation time, but loses its read state:
      `isRead` comes back false and `readBy` empty, and `systemMessageType` and `data`
      are gone. (An unpinned message encodes `isPinned` as undefined, which a write
      through the client SDK would reject; the lemma is about the two converters.) */
  lemma MessageRoundTrip(model: Obj, id: string, createTimeSeconds: int, text: string, createdAt: int)
    requires Get(model, "text") == Str(text) && Get(model, "createdAt") == Num(createdAt) && createdAt != 0
    ensures var r := ModelEntity.FromFirestore(MessageFrom,
                       ModelEntity.Snapshot(id, ModelEntity.ToFirestore(MessageTo, model), createTimeSeconds));
      && r["id"] == Str(id)
      && r["text"] == Str(text)
      && r["fromUser"] == Get(model, "fromUser")
      && r["isPinned"] == Bool(Truthy(Get(model, "isPinned")))
      && r["createdAt"] == Num(createdAt)
      && r["isRead"] == Bool(false) && r["readBy"] == Arr([])
      && r["systemMessageType"] == Undefined && r["data"] == Undefined
  {
    var encoded := ModelEntity.ToFirestore(MessageTo, model);
    MessageEncoded(model, text, createdAt);
    MessageDecoded(encoded, id, createTimeSeconds, text, createdAt);
  }

  lemma MessageEncoded(model: Obj, text: string, createdAt: int)
    requires Get(model, "text") == Str(text) && Get(model, "createdAt") == Num(createdAt)
    ensures var encoded := ModelEntity.ToFirestore(MessageTo, model);
      && Get(encoded, "text") == Str(text)
      && Get(encoded, "createdAt") == Num(createdAt)
      && Get(encoded, "fromUser") == Get(model, "fromUser")
      && Get(encoded, "isRead") == Undefined && Get(encoded, "readBy") == Undefined
      && Get(encoded, "systemMessageType") == Undefined && Get(encoded, "data") == Undefined
      && (Truthy(Get(encoded, "isPinned")) <==> Truthy(Get(model, "isPinned")))
  {
  }

  lemma MessageDecoded(encoded: Obj, id: string, createTimeSeconds: int, text: string, createdAt: int)
    requires Get(encoded, "text") == Str(text) && Get(encoded, "createdAt") == Num(createdAt) && createdAt != 0
    requires Get(encoded, "isRead") == Undefined && Get(encoded, "readBy") == Undefined
    requires Get(encoded, "systemMessageType") == Undefined && Get(encoded, "data") == Undefined
    ensures var r := ModelEntity.FromFirestore(MessageFrom, ModelEntity.Snapshot(id, encoded, createTimeSeconds));
      && r["id"] == Str(id)
      && r["text"] == Str(text)
      && r["fromUser"] == Get(encoded, "fromUser")
      && r["isPinned"] == Bool(Truthy(Get(encoded, "isPinned")))
      && r["createdAt"] == Num(createdAt)
      && r["isRead"] == Bool(false) && r["readBy"] == Arr([])
      && r["systemMessageType"] == Undefined && r["data"] == Undefined
  {
    ParseIntOfInteger(createdAt);
  }

  /** `PinnedMessageEntity` and `LinkMessageEntity` transforms, both directions: the
      message reference and `createdAt`. */
  function MessageRefFrom(data: Obj): (r: Obj)
    ensures r.Keys == {"message", "createdAt"}
    ensures forall k :: k in r ==> r[k] == Get(data, k)
  {
    map["message" := Get(data, "message"), "createdAt" := Get(data, "createdAt")]
  }

  /** `MessageFileEntity.transformFromFirestore`: `isMedia` is coerced to a boolean. */
  function MessageFileFrom(data: Obj): (r: Obj)
    ensures r.Keys == {"message", "url", "isMedia"}
    ensures r["message"] == Get(data, "message") && r["url"] == Get(data, "url")
    ensures r["isMedia"] == Bool(Truthy(Get(data, "isMedia")))
  {
    map["message" := Get(data, "message"), "url" := Get(data, "url"), "isMedia" := Bool(Truthy(Get(data, "isMedia")))]
  }

  /** `MessageFileEntity.transformToFirestore` */
  function MessageFileTo(model: Obj): (r: Obj)
    ensures r.Keys == {"message", "url", "isMedia"}
    ensures forall k :: k in r ==> r[k] == Get(model, k)
  {
    map["message" := Get(model, "message"), "url" := Get(model, "url"), "isMedia" := Get(model, "isMedia")]
  }

  /** A pinned-message (or link) record written and read back keeps its message
      reference, and its `createdAt` unless that is falsy, when the create time stands
      in. */
  lemma PinnedRoundTrip(model: Obj, id: string, createTimeSeconds: int)
    ensures var r := ModelEntity.FromFirestore(MessageRefFrom,
                       ModelEntity.Snapshot(id, ModelEntity.ToFirestore(MessageRefFrom, model), createTimeSeconds));
      && r["message"] == Get(model, "message")
      && r["createdAt"] == Or(Get(model, "createdAt"), Num(createTimeSeconds))
      && r["id"] == Str(id)
  {
    var encoded := ModelEntity.ToFirestore(MessageRefFrom, model);
    assert Get(encoded, "message") == Get(model, "message");
    assert Get(encoded, "createdAt") == Get(model, "createdAt");
  }

  /** A file record written and read back keeps its message reference and url, with
      `isMedia` coerced to a boolean. */
  lemma MessageFileRoundTrip(model: Obj, id: string, createTimeSeconds: int)
    ensures var r := ModelEntity.FromFirestore(MessageFileFrom,
                       ModelEntity.Snapshot(id, ModelEntity.ToFirestore(MessageFileTo, model), createTimeSeconds));
      && r["message"] == Get(model, "message") && r["url"] == Get(model, "url")
      && r["isMedia"] == Bool(Truthy(Get(model, "isMedia")))
  {
    var encoded := ModelEntity.ToFirestore(MessageFileTo, model);
    assert Get(encoded, "message") == Get(model, "message");
    assert Get(encoded, "url") == Get(model, "url");
    assert Get(encoded, "isMedia") == Get(model, "isMedia");
  }
}
