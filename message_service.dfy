/** Marking a message read (src/services/MessageService.ts): in a private chat, one
    transaction sets the message's `isRead` and takes one off the reader's unread count.
    In a group chat the transaction returns before issuing any write, so nothing
    changes. */
module MessageService {
  import opened Wrappers
  import opened Models
  import opened Firestore
  import Messages

  /** The whole effect of `updateMessageReadStatus(chatId, messageId, userId, isGroup)`.
      An empty id makes `doc` throw before the transaction; in a private chat, a missing
      message or userChat makes its `update` fail, and the transaction then writes
      nothing. */
  function ReadStatusUpdated(s: Store, chatId: ChatId, messageId: string, userId: UserId, isGroup: bool)
    : (r: (Store, Result<(), string>))
    ensures r.1.Err? <==>
      (|| chatId == "" || messageId == "" || userId == ""
       || (!isGroup && ((chatId, messageId) !in s.messages || (userId, chatId) !in s.userChats)))
    ensures r.1.Err? || isGroup ==> r.0 == s
    ensures r.1.Ok? && !isGroup ==>
      && r.0.messages == s.messages[(chatId, messageId) := s.messages[(chatId, messageId)].(isRead := true)]
      && r.0.userChats == s.userChats[(userId, chatId) :=
           s.userChats[(userId, chatId)].(unreadCount := s.userChats[(userId, chatId)].unreadCount - 1)]
      && r.0 == s.(messages := r.0.messages, userChats := r.0.userChats)
  {
    if chatId == "" || messageId == "" || userId == "" then (s, Err("invalid document reference"))
    else if isGroup then (s, Ok(()))
    else if (chatId, messageId) !in s.messages || (userId, chatId) !in s.userChats then (s, Err("not-found"))
    else
      var msgKey, ucKey := (chatId, messageId), (userId, chatId);
      (s.(messages := s.messages[msgKey := s.messages[msgKey].(isRead := true)],
          userChats := s.userChats[ucKey := s.userChats[ucKey].(unreadCount := s.userChats[ucKey].unreadCount - 1)]),
       Ok(()))
  }

  /** `updateMessageReadStatus`. */
  method UpdateMessageReadStatus(s: Store, chatId: ChatId, messageId: string, userId: UserId, isGroup: bool)
    returns (s': Store, r: Result<(), string>)
    ensures (s', r) == ReadStatusUpdated(s, chatId, messageId, userId, isGroup)
  {
    if chatId == "" || messageId == "" || userId == "" {
      return s, Err("invalid document reference");
    }
    if isGroup {
      return s, Ok(());
    }
    var msgKey, ucKey := (chatId, messageId), (userId, chatId);
    if msgKey !in s.messages || ucKey !in s.userChats {
      return s, Err("not-found");
    }
    s' := s.(messages := s.messages[msgKey := s.messages[msgKey].(isRead := true)]);
    var uc := s'.userChats[ucKey];
    s' := s'.(userChats := s'.userChats[ucKey := uc.(unreadCount := uc.unreadCount - 1)]);
    r := Ok(());
  }

  /** There is no floor: reading with a zero unread count leaves it at -1. */
  lemma UnreadCountCanGoNegative(s: Store, chatId: ChatId, messageId: string, userId: UserId)
    requires chatId != "" && messageId != "" && userId != ""
    requires (chatId, messageId) in s.messages && (userId, chatId) in s.userChats
    requires s.userChats[(userId, chatId)].unreadCount == 0
    ensures ReadStatusUpdated(s, chatId, messageId, userId, false).0.userChats[(userId, chatId)].unreadCount == -1
  {
  }

  /** Reading the message a fan-out counted as unread brings the reader's count back to
      what it was before the message arrived. */
  lemma ReadUndoesFanOut(s: Store, chatId: ChatId, messageId: string, userId: UserId, uc: UserChat, now: int)
    requires chatId != "" && messageId != "" && userId != "" && (chatId, messageId) in s.messages
    requires s.userChats[(userId, chatId) := Messages.Bumped(uc, now)] == s.userChats
    ensures ReadStatusUpdated(s, chatId, messageId, userId, false).0.userChats[(userId, chatId)].unreadCount == uc.unreadCount
  {
    assert (userId, chatId) in s.userChats[(userId, chatId) := Messages.Bumped(uc, now)];
  }

  /** In a group chat the message stays unread and nobody is recorded as a reader. */
  lemma GroupReadWritesNothing(s: Store, chatId: ChatId, messageId: string, userId: UserId)
    ensures ReadStatusUpdated(s, chatId, messageId, userId, true).0 == s
  {
  }
}
