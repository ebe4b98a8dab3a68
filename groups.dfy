/** Leaving a group (cloud_functions/functions/src/groups.ts): the callable `leaveGroup`
    checks its request, then deletes the caller's userChat, drops the caller from the
    chat's members with the `leaveGroup` marker, and posts a "member left" message. */
module Groups {
  import opened Wrappers
  import opened Js
  import opened Models
  import opened Firestore
  import opened SystemMessages
  import Messages
  import Chats

  /** An `HttpsError` thrown to the caller. */
  datatype HttpsError = HttpsError(code: string, message: string)

  /** The request passes every check: a chat id, an existing chat, an authenticated
      caller with a profile, and that profile among the chat's members. */
  predicate MayLeave(s: Store, chatId: Option<string>, uid: Option<string>) {
    && TruthyStr(chatId) && chatId.value in s.chats
    && TruthyStr(uid) && UserByUid(s.users, uid.value).Some?
    && UserByUid(s.users, uid.value).value.id in s.chats[chatId.value].members
  }

  /** The validations of `leaveGroup`, in order: the first one that fails is the error; when
      they all pass, the result is the caller's profile id (the first profile whose
      `uid` is the caller's Auth uid). */
  function LeaveGroupCheck(s: Store, chatId: Option<string>, uid: Option<string>): (r: Result<UserId, HttpsError>)
    ensures r.Ok? <==> MayLeave(s, chatId, uid)
    ensures r.Ok? ==> r.value == UserByUid(s.users, uid.value).value.id
    ensures !TruthyStr(chatId) ==> r == Err(HttpsError("invalid-argument", "chatId and memberId are required"))
    ensures TruthyStr(chatId) && chatId.value !in s.chats ==> r == Err(HttpsError("not-found", "Chat not found"))
    ensures TruthyStr(chatId) && chatId.value in s.chats && !TruthyStr(uid)
      ==> r == Err(HttpsError("unauthenticated", "User must be authenticated"))
  {
    if !TruthyStr(chatId) then Err(HttpsError("invalid-argument", "chatId and memberId are required"))
    else if chatId.value !in s.chats then Err(HttpsError("not-found", "Chat not found"))
    else if !TruthyStr(uid) then Err(HttpsError("unauthenticated", "User must be authenticated"))
    else
      match UserByUid(s.users, uid.value)
      case None => Err(HttpsError("not-found", "User not found"))
      case Some(member) =>
        if member.id !in s.chats[chatId.value].members then Err(HttpsError("not-found", "Member not found in the chat"))
        else Ok(member.id)
  }

  /** The chat after `chatRef.update`: the member filtered out, the marker set. */
  function WithoutMember(chat: Chat, memberId: UserId): (r: Chat)
    ensures forall m :: m in r.members <==> m in chat.members && m != memberId
    ensures r.updatedFrom == Some(LEAVE_GROUP)
    ensures r == chat.(members := r.members, updatedFrom := r.updatedFrom)
  {
    chat.(members := Messages.Recipients(chat.members, memberId), updatedFrom := Some(LEAVE_GROUP))
  }

  /** `leaveGroup({chatId})` called by the Auth user `uid`. A failed check throws its
      error and writes nothing. Otherwise the caller's userChat of the chat is deleted,
      the caller is no longer a member and the chat carries the `leaveGroup` marker, and
      the chat gets one "member left" message naming the caller; nothing else changes. */
  function LeaveGroup(s: Store, chatId: Option<string>, uid: Option<string>, now: int)
    : (r: (Store, Result<(), HttpsError>))
    ensures r.1.Err? <==> !MayLeave(s, chatId, uid)
    ensures r.1.Err? ==> r.0 == s && r.1.error == LeaveGroupCheck(s, chatId, uid).error
    ensures r.1.Ok? ==>
      var c := chatId.value;
      var memberId := UserByUid(s.users, uid.value).value.id;
      && r.0.userChats == s.userChats - {(memberId, c)}
      && c in r.0.chats && r.0.chats == s.chats[c := WithoutMember(s.chats[c], memberId)]
      && memberId !in r.0.chats[c].members
      && SystemMessagesOf(r.0, c) == SystemMessagesOf(s, c) + [Record(GroupMemberLeft, LeftMemberData(memberId), now)]
      && r.0 == s.(userChats := r.0.userChats, chats := r.0.chats, systemMessages := r.0.systemMessages)
  {
    match LeaveGroupCheck(s, chatId, uid)
    case Err(e) => (s, Err(e))
    case Ok(memberId) =>
      var c := chatId.value;
      var deleted := s.(userChats := s.userChats - {(memberId, c)});
      var updated := deleted.(chats := deleted.chats[c := WithoutMember(deleted.chats[c], memberId)]);
      (CreateSystemMessage(updated, c, GroupMemberLeft, LeftMemberData(memberId), now).0, Ok(()))
  }

  /** The chat update `leaveGroup` makes does not trigger the "added"/"removed" logic:
      `onChatUpdated` sees the marker and skips it. */
  lemma LeaveGroupUpdateIsSkipped(s: Store, chatId: Option<string>, uid: Option<string>, now: int, later: int)
    requires MayLeave(s, chatId, uid)
    ensures var s' := LeaveGroup(s, chatId, uid, now).0;
      var c := chatId.value;
      Chats.ChatUpdatedEffect(s', c, Some((s.chats[c], s'.chats[c])), later) == (s', Completed)
  {
    var s' := LeaveGroup(s, chatId, uid, now).0;
    Chats.LeaveMarkerSkipsLaterUpdates(s', chatId.value, s.chats[chatId.value], s'.chats[chatId.value], later);
  }

  /** Leaving twice: the second call finds the caller no longer a member and fails with
      "Member not found in the chat", writing nothing. */
  lemma LeavingTwiceFails(s: Store, chatId: Option<string>, uid: Option<string>, now: int, later: int)
    requires MayLeave(s, chatId, uid)
    ensures var s' := LeaveGroup(s, chatId, uid, now).0;
      LeaveGroup(s', chatId, uid, later) == (s', Err(HttpsError("not-found", "Member not found in the chat")))
  {
    var s' := LeaveGroup(s, chatId, uid, now).0;
    assert s'.users == s.users;
  }
}
