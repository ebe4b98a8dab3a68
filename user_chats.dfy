/** Cleaning up after a deleted userChat (cloud_functions/functions/src/user_chats.ts):
    when the creator of a group deletes their userChat the whole group goes; when both
    users of a private chat have deleted theirs the chat goes. */
module UserChats {
  import opened Wrappers
  import opened Models
  import opened Firestore

  /** The userChats of a chat after `for (member of members) delete(userChats/{member}/chats/{chatId})`. */
  function DeleteUserChats(ucs: map<(UserId, ChatId), UserChat>, chatId: ChatId, members: seq<UserId>)
    : map<(UserId, ChatId), UserChat>
  {
    if members == [] then ucs
    else DeleteUserChats(ucs, chatId, members[..|members| - 1]) - {(members[|members| - 1], chatId)}
  }

  /** The members' userChats of the chat are gone; every other userChat stays as it was. */
  lemma {:induction false} DeleteUserChatsEffect(
    ucs: map<(UserId, ChatId), UserChat>, chatId: ChatId, members: seq<UserId>, key: (UserId, ChatId))
    ensures var r := DeleteUserChats(ucs, chatId, members);
      if key.1 == chatId && key.0 in members then key !in r
      else (key in r <==> key in ucs) && (key in r ==> r[key] == ucs[key])
  {
    if members != [] {
      var init := members[..|members| - 1];
      DeleteUserChatsEffect(ucs, chatId, init, key);
      assert members == init + [members[|members| - 1]];
    }
  }

  /** `chat.members.find(member => member.id !== userId)` */
  function FirstOther(members: seq<UserId>, userId: UserId): (r: Option<UserId>)
    ensures r.None? <==> forall m :: m in members ==> m == userId
    ensures r.Some? ==> r.value != userId && r.value in members
    ensures r.Some? ==>
      exists i :: 0 <= i < |members| && members[i] == r.value && forall j :: 0 <= j < i ==> members[j] == userId
  {
    if members == [] then None
    else if members[0] != userId then
      assert members[0] in members;
      Some(members[0])
    else
      var r := FirstOther(members[1..], userId);
      assert (forall m :: m in members ==> m == userId) <==> (forall m :: m in members[1..] ==> m == userId) by {
        forall m | m in members && m != userId ensures m in members[1..] {
          var k :| 0 <= k < |members| && members[k] == m;
          assert members[k] == members[1..][k - 1];
        }
        forall m | m in members[1..] ensures m in members {
          var k :| 0 <= k < |members| - 1 && members[1..][k] == m;
          assert members[k + 1] == m;
        }
      }
      assert r.Some? ==> exists i :: 0 <= i < |members| && members[i] == r.value
                                     && forall j :: 0 <= j < i ==> members[j] == userId by {
        if r.Some? {
          var i :| 0 <= i < |members| - 1 && members[1..][i] == r.value
                   && forall j :: 0 <= j < i ==> members[1..][j] == userId;
          assert members[i + 1] == r.value;
          forall j | 0 <= j < i + 1 ensures members[j] == userId {
            if j > 0 { assert members[j] == members[1..][j - 1]; }
          }
        }
      }
      r
  }

  /** `handleGroupChatDeleted`: only the creator's deletion removes the group, every
      member's userChat first and the chat last. Reading the creator of a group written
      without one throws. */
  function GroupChatDeleted(s: Store, userId: UserId, chatId: ChatId, chat: Chat): (Store, Outcome) {
    if chat.createdBy.None? then (s, Aborted)
    else if chat.createdBy.value != userId then (s, Completed)
    else (s.(userChats := DeleteUserChats(s.userChats, chatId, chat.members), chats := s.chats - {chatId}), Completed)
  }

  /** `handleUserChatDeleted`: the chat goes when the first other member has no userChat
      of it either. */
  function PrivateChatDeleted(s: Store, userId: UserId, chatId: ChatId, chat: Chat): Store {
    match FirstOther(chat.members, userId)
    case None => s
    case Some(other) =>
      if (other, chatId) !in s.userChats then s.(chats := s.chats - {chatId}) else s
  }

  /** The whole effect of `onUserChatDeleted` on `userChats/{userId}/chats/{chatId}`;
      `deleted` is the deleted document, `None` when the event carries none. */
  function UserChatDeletedEffect(s: Store, userId: UserId, chatId: ChatId, deleted: Option<UserChat>): (Store, Outcome) {
    if deleted.None? || chatId == "" || userId == "" || chatId !in s.chats then (s, Completed)
    else
      var chat := s.chats[chatId];
      if chat.isGroup then GroupChatDeleted(s, userId, chatId, chat)
      else (PrivateChatDeleted(s, userId, chatId, chat), Completed)
  }

  /** `onUserChatDeleted` */
  method OnUserChatDeleted(s: Store, userId: UserId, chatId: ChatId, deleted: Option<UserChat>)
    returns (s': Store, outcome: Outcome)
    ensures (s', outcome) == UserChatDeletedEffect(s, userId, chatId, deleted)
  {
    if deleted.None? || chatId == "" || userId == "" {
      return s, Completed;
    }
    if chatId !in s.chats {
      return s, Completed;
    }
    var chat := s.chats[chatId];
    if chat.isGroup {
      if chat.createdBy.None? {
        return s, Aborted;
      }
      if chat.createdBy.value != userId {
        return s, Completed;
      }
      s' := s;
      var i := 0;
      while i < |chat.members|
        invariant 0 <= i <= |chat.members|
        invariant s' == s.(userChats := DeleteUserChats(s.userChats, chatId, chat.members[..i]))
      {
        assert chat.members[..i + 1][..i] == chat.members[..i];
        s' := s'.(userChats := s'.userChats - {(chat.members[i], chatId)});
        i := i + 1;
      }
      assert chat.members[..i] == chat.members;
      s' := s'.(chats := s'.chats - {chatId});
      return s', Completed;
    }
    var other := FirstOther(chat.members, userId);
    if other.None? {
      return s, Completed;
    }
    if (other.value, chatId) !in s.userChats {
      return s.(chats := s.chats - {chatId}), Completed;
    }
    return s, Completed;
  }

  /** Only deletions: every userChat and chat of r was in s with the same value, and
      nothing but userChats and chats differs. */
  predicate OnlyDeletions(s: Store, r: Store, key: (UserId, ChatId)) {
    && r == s.(userChats := r.userChats, chats := r.chats)
    && (key in r.userChats ==> key in s.userChats && r.userChats[key] == s.userChats[key])
    && r.chats.Keys <= s.chats.Keys
    && forall c :: c in r.chats ==> r.chats[c] == s.chats[c]
  }

  /** The handler only deletes: every userChat and every chat left was there before,
      unchanged, and nothing else is written. */
  lemma OnlyDeletes(s: Store, userId: UserId, chatId: ChatId, deleted: Option<UserChat>, key: (UserId, ChatId))
    ensures OnlyDeletions(s, UserChatDeletedEffect(s, userId, chatId, deleted).0, key)
  {
    if !(deleted.None? || chatId == "" || userId == "" || chatId !in s.chats) {
      var chat := s.chats[chatId];
      if chat.isGroup {
        GroupOnlyDeletes(s, userId, chatId, chat, key);
      } else {
        PrivateOnlyDeletes(s, userId, chatId, chat, key);
      }
    }
  }

  lemma GroupOnlyDeletes(s: Store, userId: UserId, chatId: ChatId, chat: Chat, key: (UserId, ChatId))
    ensures OnlyDeletions(s, GroupChatDeleted(s, userId, chatId, chat).0, key)
  {
    if chat.createdBy.Some? && chat.createdBy.value == userId {
      DeleteUserChatsEffect(s.userChats, chatId, chat.members, key);
    }
  }

  lemma PrivateOnlyDeletes(s: Store, userId: UserId, chatId: ChatId, chat: Chat, key: (UserId, ChatId))
    ensures OnlyDeletions(s, PrivateChatDeleted(s, userId, chatId, chat), key)
  {
    var other := FirstOther(chat.members, userId);
    if other.Some? && (other.value, chatId) !in s.userChats {
      assert PrivateChatDeleted(s, userId, chatId, chat) == s.(chats := s.chats - {chatId});
    } else {
      assert PrivateChatDeleted(s, userId, chatId, chat) == s;
    }
  }

  /** The creator deleting their userChat of a group deletes the group and every
      member's userChat of it. */
  lemma CreatorDeletesGroup(s: Store, userId: UserId, chatId: ChatId, deleted: UserChat, member: UserId)
    requires userId != "" && chatId != "" && chatId in s.chats
    requires s.chats[chatId].isGroup && s.chats[chatId].createdBy == Some(userId)
    requires member in s.chats[chatId].members
    ensures var (r, outcome) := UserChatDeletedEffect(s, userId, chatId, Some(deleted));
      && outcome == Completed && chatId !in r.chats && (member, chatId) !in r.userChats
  {
    DeleteUserChatsEffect(s.userChats, chatId, s.chats[chatId].members, (member, chatId));
  }

  /** A member other than the creator deleting their userChat of a group changes
      nothing. */
  lemma MemberLeavesGroupAlone(s: Store, userId: UserId, chatId: ChatId, deleted: UserChat)
    requires chatId in s.chats && s.chats[chatId].isGroup
    requires s.chats[chatId].createdBy.Some? && s.chats[chatId].createdBy.value != userId
    ensures UserChatDeletedEffect(s, userId, chatId, Some(deleted)) == (s, Completed)
  {
  }

  /** In a private chat between two users, the chat goes exactly when the other user's
      userChat is gone too. */
  lemma PrivateChatGoesWithBothUserChats(s: Store, userId: UserId, other: UserId, chatId: ChatId, deleted: UserChat)
    requires userId != "" && chatId != "" && userId != other
    requires chatId in s.chats && !s.chats[chatId].isGroup
    requires s.chats[chatId].members == [userId, other] || s.chats[chatId].members == [other, userId]
    ensures var r := UserChatDeletedEffect(s, userId, chatId, Some(deleted)).0;
      chatId !in r.chats <==> (other, chatId) !in s.userChats
  {
    var members := s.chats[chatId].members;
    if members == [userId, other] {
      assert members[1..] == [other];
      assert FirstOther(members[1..], userId) == Some(other);
    }
    assert FirstOther(members, userId) == Some(other);
  }
}
