/** Pinning and unpinning a message (src/services/PinnedMessageService.ts): one
    transaction that either deletes the pin record and clears the message's `isPinned`,
    or writes the pin record and sets it. Which of the two happens is decided by the
    caller's copy of the message, not by the stored one. */
module PinnedMessageService {
  import opened Wrappers
  import opened Models
  import opened Firestore
  import DateTime

  /** `chats/{chatId}/messages/{messageId}`, which is also the key of its pin record
      `chats/{chatId}/pinnedMessage/{messageId}`. */
  function MessageKey(chatId: ChatId, messageId: string): (ChatId, string) {
    (chatId, messageId)
  }

  /** The whole effect of `togglePinnedMessage(chatId, message)`, where `isPinned` is the
      truth of the caller's `message.isPinned`. An empty id makes `doc` throw before the
      transaction; a missing message makes its `update` fail, and the transaction then
      writes nothing. */
  function PinToggled(s: Store, chatId: ChatId, messageId: string, isPinned: bool, now: int)
    : (r: (Store, Result<(), string>))
    ensures r.1.Err? <==> chatId == "" || messageId == "" || MessageKey(chatId, messageId) !in s.messages
    ensures r.1.Err? ==> r.0 == s
    ensures r.1.Ok? ==> var key := MessageKey(chatId, messageId);
      && r.0.messages == s.messages[key := s.messages[key].(isPinned := !isPinned)]
      && r.0.pinned == (if isPinned then s.pinned - {key}
                        else s.pinned[key := PinnedRecord(messageId, DateTime.NowToUtcTimestamp(now))])
      && r.0 == s.(messages := r.0.messages, pinned := r.0.pinned)
  {
    var key := MessageKey(chatId, messageId);
    if chatId == "" || messageId == "" then (s, Err("invalid document reference"))
    else if key !in s.messages then (s, Err("not-found"))
    else if isPinned then
      (s.(pinned := s.pinned - {key}, messages := s.messages[key := s.messages[key].(isPinned := false)]), Ok(()))
    else
      (s.(pinned := s.pinned[key := PinnedRecord(messageId, DateTime.NowToUtcTimestamp(now))],
          messages := s.messages[key := s.messages[key].(isPinned := true)]), Ok(()))
  }

  /** `togglePinnedMessage`, with the time given. The transaction's writes are staged
      and applied together once the message is known to exist. */
  method TogglePinnedMessage(s: Store, chatId: ChatId, messageId: string, isPinned: bool, now: int)
    returns (s': Store, r: Result<(), string>)
    ensures (s', r) == PinToggled(s, chatId, messageId, isPinned, now)
  {
    if chatId == "" || messageId == "" {
      return s, Err("invalid document reference");
    }
    var key := MessageKey(chatId, messageId);
    if key !in s.messages {
      return s, Err("not-found");
    }
    var pinned := if isPinned then s.pinned - {key}
                  else s.pinned[key := PinnedRecord(messageId, DateTime.NowToUtcTimestamp(now))];
    var message := s.messages[key].(isPinned := !isPinned);
    s', r := s.(pinned := pinned, messages := s.messages[key := message]), Ok(());
  }

  /** The message's flag says whether its pin record exists. */
  predicate FlagAgrees(s: Store, key: (ChatId, string))
    requires key in s.messages
  {
    s.messages[key].isPinned <==> key in s.pinned
  }

  /** Both writes happen together: after a toggle the message's flag agrees with the
      presence of its pin record, whatever they were before. */
  lemma ToggleAgrees(s: Store, chatId: ChatId, messageId: string, isPinned: bool, now: int)
    requires PinToggled(s, chatId, messageId, isPinned, now).1.Ok?
    ensures var s' := PinToggled(s, chatId, messageId, isPinned, now).0;
      MessageKey(chatId, messageId) in s'.messages && FlagAgrees(s', MessageKey(chatId, messageId))
  {
  }

  /** The branch follows the caller's flag: the stored flag ends up as its negation,
      even when the caller's copy is stale. */
  lemma CallerFlagDecides(s: Store, chatId: ChatId, messageId: string, isPinned: bool, now: int)
    requires PinToggled(s, chatId, messageId, isPinned, now).1.Ok?
    ensures var s' := PinToggled(s, chatId, messageId, isPinned, now).0;
      && s'.messages[MessageKey(chatId, messageId)].isPinned == !isPinned
      && (MessageKey(chatId, messageId) in s'.pinned <==> !isPinned)
  {
  }

  /** Toggling twice, each time with the stored flag, restores the flag and the presence
      of the pin record; every message is as it was. */
  lemma ToggleTwiceRestores(s: Store, chatId: ChatId, messageId: string, now1: int, now2: int)
    requires MessageKey(chatId, messageId) in s.messages && FlagAgrees(s, MessageKey(chatId, messageId))
    requires chatId != "" && messageId != ""
    ensures var key := MessageKey(chatId, messageId);
      var s1 := PinToggled(s, chatId, messageId, s.messages[key].isPinned, now1).0;
      var s2 := PinToggled(s1, chatId, messageId, s1.messages[key].isPinned, now2).0;
      && s2.messages == s.messages
      && (key in s2.pinned <==> key in s.pinned)
      && (forall k :: k != key ==> (k in s2.pinned <==> k in s.pinned))
      && s2 == s.(pinned := s2.pinned)
  {
    var key := MessageKey(chatId, messageId);
    var s1 := PinToggled(s, chatId, messageId, s.messages[key].isPinned, now1).0;
    var s2 := PinToggled(s1, chatId, messageId, s1.messages[key].isPinned, now2).0;
    assert s2.messages == s.messages[key := s.messages[key]];
  }

  /** A caller whose copy still says "pinned" after the pin was removed elsewhere
      unpins an unpinned message: nothing is left pinned. */
  lemma StaleUnpinIsHarmless(s: Store, chatId: ChatId, messageId: string, now: int)
    requires MessageKey(chatId, messageId) in s.messages && chatId != "" && messageId != ""
    requires !s.messages[MessageKey(chatId, messageId)].isPinned && MessageKey(chatId, messageId) !in s.pinned
    ensures PinToggled(s, chatId, messageId, true, now).0 == s
  {
    var key := MessageKey(chatId, messageId);
    assert s.messages[key := s.messages[key].(isPinned := false)] == s.messages;
    assert s.pinned - {key} == s.pinned;
  }
}
