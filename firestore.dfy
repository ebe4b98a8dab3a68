/** The document store the cloud functions and the client transactions work on, as a
    value: one field per collection group. Documents written under a chosen id are maps
    keyed by that id (and the owning document's id); documents added with a generated id
    are sequences in the order they were added. The `users` collection is a sequence in
    the order queries return it. `refreshTimes` holds the refresh-time documents by
    their full path, and `claims` the Auth users' custom `username` claim by uid. */
module Firestore {
  import opened Wrappers
  import opened Models

  datatype Store = Store(
    chats: map<ChatId, Chat>,
    userChats: map<(UserId, ChatId), UserChat>,
    users: seq<UserDoc>,
    tokens: map<UserId, seq<PushToken>>,
    messages: map<(ChatId, string), MessageDoc>,
    systemMessages: map<ChatId, seq<SystemRecord>>,
    pinned: map<(ChatId, string), PinnedRecord>,
    files: map<ChatId, seq<FileRecord>>,
    links: map<ChatId, seq<LinkRecord>>,
    refreshTimes: map<string, int>,
    claims: map<string, string>)

  /** How a trigger ended: normally, or with an exception that the runtime logs. Writes
      made before the exception stay in the store. */
  datatype Outcome = Completed | Aborted

  /** The system messages of a chat, oldest first. */
  function SystemMessagesOf(s: Store, chatId: ChatId): seq<SystemRecord> {
    if chatId in s.systemMessages then s.systemMessages[chatId] else []
  }

  /** The documents of `users/{userId}/tokens` (an empty list when there are none). */
  function TokensOf(s: Store, userId: UserId): seq<PushToken> {
    if userId in s.tokens then s.tokens[userId] else []
  }

  function FilesOf(s: Store, chatId: ChatId): seq<FileRecord> {
    if chatId in s.files then s.files[chatId] else []
  }

  function LinksOf(s: Store, chatId: ChatId): seq<LinkRecord> {
    if chatId in s.links then s.links[chatId] else []
  }

  /** `users/{id}`: the first profile with that id, if any. */
  function UserById(users: seq<UserDoc>, id: UserId): (r: Option<UserDoc>)
    ensures r.None? <==> forall i :: 0 <= i < |users| ==> users[i].id != id
    ensures r.Some? ==> exists i :: 0 <= i < |users| && users[i] == r.value && r.value.id == id
  {
    if users == [] then None
    else if users[0].id == id then Some(users[0])
    else
      var r := UserById(users[1..], id);
      assert forall i :: 1 <= i < |users| ==> users[i] == users[1..][i - 1];
      r
  }

  /** `users where uid == uid`, first document: the profile of an Auth user. */
  function UserByUid(users: seq<UserDoc>, uid: string): (r: Option<UserDoc>)
    ensures r.None? <==> forall i :: 0 <= i < |users| ==> users[i].uid != Some(uid)
    ensures r.Some? ==> r.value.uid == Some(uid)
    ensures r.Some? ==>
      exists i :: 0 <= i < |users| && users[i] == r.value && forall j :: 0 <= j < i ==> users[j].uid != Some(uid)
  {
    if users == [] then None
    else if users[0].uid == Some(uid) then Some(users[0])
    else
      var r := UserByUid(users[1..], uid);
      assert forall i :: 1 <= i < |users| ==> users[i] == users[1..][i - 1];
      r
  }
}
