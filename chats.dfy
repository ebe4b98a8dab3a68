/** Group chat triggers (cloud_functions/functions/src/chats.ts): a created group gets a
    "created" system message, a userChat and an "added" message per member other than
    the creator, and a notification; an updated group gets a message per rename, per
    new image, per added and per removed member, and the userChats of added and removed
    members are created and deleted. */
module Chats {
  import opened Wrappers
  import opened Js
  import opened Models
  import opened Firestore
  import opened SystemMessages
  import opened Notifications
  import Messages

  /** The userChat `createUserChat` sets: one unread message, not starred, created now,
      and no `updatedAt`. It replaces any document already there. */
  function NewUserChat(chatId: ChatId, now: int): UserChat {
    UserChat(chatId, 1, false, Some(now), None)
  }

  /** One iteration of an "add member" loop: the system message, then `createUserChat`. */
  function AddMember(s: Store, chatId: ChatId, m: UserId, now: int): (r: Store)
    ensures r == s.(userChats := r.userChats, systemMessages := r.systemMessages)
    ensures r.userChats == s.userChats[(m, chatId) := NewUserChat(chatId, now)]
  {
    var s1 := CreateSystemMessage(s, chatId, GroupMemberAdded, NewMemberData(m), now).0;
    s1.(userChats := s1.userChats[(m, chatId) := NewUserChat(chatId, now)])
  }

  /** One iteration of the "remove member" loop: the system message, then `deleteUserChat`. */
  function RemoveMember(s: Store, chatId: ChatId, m: UserId, now: int): (r: Store)
    ensures r == s.(userChats := r.userChats, systemMessages := r.systemMessages)
    ensures r.userChats == s.userChats - {(m, chatId)}
  {
    var s1 := CreateSystemMessage(s, chatId, GroupMemberRemoved, RemovedMemberData(m), now).0;
    s1.(userChats := s1.userChats - {(m, chatId)})
  }

  function AddMembers(s: Store, chatId: ChatId, members: seq<UserId>, now: int): Store {
    if members == [] then s
    else AddMember(AddMembers(s, chatId, members[..|members| - 1], now), chatId, members[|members| - 1], now)
  }

  function RemoveMembers(s: Store, chatId: ChatId, members: seq<UserId>, now: int): Store {
    if members == [] then s
    else RemoveMember(RemoveMembers(s, chatId, members[..|members| - 1], now), chatId, members[|members| - 1], now)
  }

  /** The loop `for (const member of members) { GROUP_MEMBER_ADDED; createUserChat }`. */
  method AddMembersLoop(s: Store, chatId: ChatId, members: seq<UserId>, now: int) returns (s': Store)
    ensures s' == AddMembers(s, chatId, members, now)
  {
    s' := s;
    var i := 0;
    while i < |members|
      invariant 0 <= i <= |members|
      invariant s' == AddMembers(s, chatId, members[..i], now)
    {
      assert members[..i + 1][..i] == members[..i];
      s' := CreateSystemMessage(s', chatId, GroupMemberAdded, NewMemberData(members[i]), now).0;
      s' := s'.(userChats := s'.userChats[(members[i], chatId) := NewUserChat(chatId, now)]);
      i := i + 1;
    }
    assert members[..i] == members;
  }

  /** The loop `for (const member of removedMembers) { GROUP_MEMBER_REMOVED; deleteUserChat }`. */
  method RemoveMembersLoop(s: Store, chatId: ChatId, members: seq<UserId>, now: int) returns (s': Store)
    ensures s' == RemoveMembers(s, chatId, members, now)
  {
    s' := s;
    var i := 0;
    while i < |members|
      invariant 0 <= i <= |members|
      invariant s' == RemoveMembers(s, chatId, members[..i], now)
    {
      assert members[..i + 1][..i] == members[..i];
      s' := CreateSystemMessage(s', chatId, GroupMemberRemoved, RemovedMemberData(members[i]), now).0;
      s' := s'.(userChats := s'.userChats - {(members[i], chatId)});
      i := i + 1;
    }
    assert members[..i] == members;
  }

  /** The "added" messages of a list of members, in order. */
  function AddedRecords(members: seq<UserId>, now: int): (r: seq<SystemRecord>)
    ensures |r| == |members|
    ensures forall i :: 0 <= i < |members| ==> r[i] == Record(GroupMemberAdded, NewMemberData(members[i]), now)
  {
    if members == [] then []
    else AddedRecords(members[..|members| - 1], now) + [Record(GroupMemberAdded, NewMemberData(members[|members| - 1]), now)]
  }

  /** The "removed" messages of a list of members, in order. */
  function RemovedRecords(members: seq<UserId>, now: int): (r: seq<SystemRecord>)
    ensures |r| == |members|
    ensures forall i :: 0 <= i < |members| ==> r[i] == Record(GroupMemberRemoved, RemovedMemberData(members[i]), now)
  {
    if members == [] then []
    else RemovedRecords(members[..|members| - 1], now) + [Record(GroupMemberRemoved, RemovedMemberData(members[|members| - 1]), now)]
  }

  /** Adding members writes only system messages and userChats; the chat gets one
      "added" message per member, in order, and the other chats none. */
  lemma {:induction false} AddMembersMessages(s: Store, chatId: ChatId, members: seq<UserId>, now: int, c: ChatId)
    ensures var r := AddMembers(s, chatId, members, now);
      && r == s.(userChats := r.userChats, systemMessages := r.systemMessages)
      && SystemMessagesOf(r, c) == SystemMessagesOf(s, c) + (if c == chatId then AddedRecords(members, now) else [])
  {
    if members != [] {
      var init, m := members[..|members| - 1], members[|members| - 1];
      AddMembersMessages(s, chatId, init, now, c);
      var prev := AddMembers(s, chatId, init, now);
      var rec := Record(GroupMemberAdded, NewMemberData(m), now);
      assert SystemMessagesOf(AddMember(prev, chatId, m, now), c)
        == SystemMessagesOf(prev, c) + if c == chatId then [rec] else [];
      assert AddedRecords(members, now) == AddedRecords(init, now) + [rec];
      if c == chatId {
        SeqAssoc(SystemMessagesOf(s, c), AddedRecords(init, now), [rec]);
      }
    }
  }

  /** Removing members writes only system messages and userChats; the chat gets one
      "removed" message per member, in order, and the other chats none. */
  lemma {:induction false} RemoveMembersMessages(s: Store, chatId: ChatId, members: seq<UserId>, now: int, c: ChatId)
    ensures var r := RemoveMembers(s, chatId, members, now);
      && r == s.(userChats := r.userChats, systemMessages := r.systemMessages)
      && SystemMessagesOf(r, c) == SystemMessagesOf(s, c) + (if c == chatId then RemovedRecords(members, now) else [])
  {
    if members != [] {
      var init, m := members[..|members| - 1], members[|members| - 1];
      RemoveMembersMessages(s, chatId, init, now, c);
      var prev := RemoveMembers(s, chatId, init, now);
      var rec := Record(GroupMemberRemoved, RemovedMemberData(m), now);
      assert SystemMessagesOf(RemoveMember(prev, chatId, m, now), c)
        == SystemMessagesOf(prev, c) + if c == chatId then [rec] else [];
      assert RemovedRecords(members, now) == RemovedRecords(init, now) + [rec];
      if c == chatId {
        SeqAssoc(SystemMessagesOf(s, c), RemovedRecords(init, now), [rec]);
      }
    }
  }

  /** Every added member's userChat of this chat is (re)set to a new one; no other
      userChat changes. */
  lemma {:induction false} AddMembersUserChats(s: Store, chatId: ChatId, members: seq<UserId>, now: int, key: (UserId, ChatId))
    ensures var r := AddMembers(s, chatId, members, now).userChats;
      if key.1 == chatId && key.0 in members then key in r && r[key] == NewUserChat(chatId, now)
      else (key in r <==> key in s.userChats) && (key in r ==> r[key] == s.userChats[key])
  {
    if members != [] {
      var init := members[..|members| - 1];
      AddMembersUserChats(s, chatId, init, now, key);
      assert members == init + [members[|members| - 1]];
    }
  }

  /** Every removed member's userChat of this chat is gone; no other userChat changes. */
  lemma {:induction false} RemoveMembersUserChats(s: Store, chatId: ChatId, members: seq<UserId>, now: int, key: (UserId, ChatId))
    ensures var r := RemoveMembers(s, chatId, members, now).userChats;
      if key.1 == chatId && key.0 in members then key !in r
      else (key in r <==> key in s.userChats) && (key in r ==> r[key] == s.userChats[key])
  {
    if members != [] {
      var init := members[..|members| - 1];
      RemoveMembersUserChats(s, chatId, init, now, key);
      assert members == init + [members[|members| - 1]];
    }
  }

  // ---- onChatCreated ----

  /** The notification a new group sends to its members. */
  function AddedPayload(chat: Chat, chatId: ChatId): Payload {
    Payload(Some(if TruthyStr(chat.groupName) then chat.groupName.value else ""),
            "You have been added to the group chat", chatId,
            if TruthyStr(chat.groupImageUrl) then chat.groupImageUrl.value else "")
  }

  /** The whole effect of `onChatCreated` on `chats/{chatId}`. A group without a name
      aborts at once: its "created" message holds `undefined`. Without a creator, the
      member filter throws as soon as there is a member to test, after the "created"
      message; with no member the rest has nothing to do. */
  function ChatCreatedEffect(s: Store, chatId: ChatId, snapshot: Option<Chat>, now: int, send: Transport)
    : (Store, Option<Multicast>, Outcome)
    requires OneResponsePerToken(send)
  {
    if snapshot.None? || !snapshot.value.isGroup then (s, None, Completed)
    else
      var chat := snapshot.value;
      var stored := CreateSystemMessage(s, chatId, GroupCreated, GroupNameData(chat.groupName), now);
      var created := stored.0;
      if stored.1 == Aborted then (s, None, Aborted)
      else if chat.createdBy.None? then
        (created, None, if chat.members == [] then Completed else Aborted)
      else
        var creator := chat.createdBy.value;
        var members := Messages.Recipients(chat.members, creator);
        var added := AddMembers(created, chatId, members, now);
        var all := AllTokens(added, members);
        var sent := if all != [] && UserById(added.users, creator).Some? then Some(Multicast(TokenIds(all), AddedPayload(chat, chatId))) else None;
        var notified :=
          if all != [] && UserById(added.users, creator).None? then added
          else DeleteTokens(added, ExpiredTokens(added, members, now) + if sent.Some? then RejectedTokens(all, send(TokenIds(all))) else []);
        (notified, sent, Completed)
  }

  /** `onChatCreated` */
  method OnChatCreated(s: Store, chatId: ChatId, snapshot: Option<Chat>, now: int, send: Transport)
    returns (s': Store, sent: Option<Multicast>, outcome: Outcome)
    requires OneResponsePerToken(send)
    ensures (s', sent, outcome) == ChatCreatedEffect(s, chatId, snapshot, now, send)
  {
    if snapshot.None? {
      return s, None, Completed;
    }
    var chat := snapshot.value;
    if !chat.isGroup {
      return s, None, Completed;
    }
    var created := CreateSystemMessage(s, chatId, GroupCreated, GroupNameData(chat.groupName), now);
    if created.1 == Aborted {
      return s, None, Aborted;
    }
    s' := created.0;
    if chat.createdBy.None? {
      return s', None, if chat.members == [] then Completed else Aborted;
    }
    var creator := chat.createdBy.value;
    var members := Messages.Recipients(chat.members, creator);
    s' := AddMembersLoop(s', chatId, members, now);
    s', sent := SendNotification(s', members, creator, AddedPayload(chat, chatId), now, send);
    outcome := Completed;
  }

  /** A new group: a group without a name writes nothing and aborts; a named one gets
      the "created" message and then one "added" message per member other than the
      creator, in the order of `members`. */
  lemma ChatCreatedMessages(s: Store, chatId: ChatId, chat: Chat, now: int, send: Transport)
    requires OneResponsePerToken(send)
    requires chat.isGroup && chat.createdBy.Some?
    ensures var r := ChatCreatedEffect(s, chatId, Some(chat), now, send);
      if chat.groupName.None? then r == (s, None, Aborted)
      else
        && r.2 == Completed
        && SystemMessagesOf(r.0, chatId) == SystemMessagesOf(s, chatId)
             + [Record(GroupCreated, GroupNameData(chat.groupName), now)]
             + AddedRecords(Messages.Recipients(chat.members, chat.createdBy.value), now)
  {
    if chat.groupName.Some? {
      var creator := chat.createdBy.value;
      var members := Messages.Recipients(chat.members, creator);
      var created := AddSystemMessage(s, chatId, GroupCreated, GroupNameData(chat.groupName), now);
      assert created.userChats == s.userChats;
      AddMembersMessages(created, chatId, members, now, chatId);
      NotifiedKeepsRest(AddMembers(created, chatId, members, now), members, creator, AddedPayload(chat, chatId), now, send);
    }
  }

  /** A new named group: every member other than the creator gets a new userChat with
      one unread message; the creator and everybody else keep theirs. A group without a
      name changes no userChat. */
  lemma ChatCreatedUserChats(s: Store, chatId: ChatId, chat: Chat, now: int, send: Transport, key: (UserId, ChatId))
    requires OneResponsePerToken(send)
    requires chat.isGroup && chat.createdBy.Some?
    ensures var r := ChatCreatedEffect(s, chatId, Some(chat), now, send).0.userChats;
      if key.1 == chatId && chat.groupName.Some? && key.0 in chat.members && key.0 != chat.createdBy.value then
        key in r && r[key] == NewUserChat(chatId, now)
      else (key in r <==> key in s.userChats) && (key in r ==> r[key] == s.userChats[key])
  {
    if chat.groupName.Some? {
      var creator := chat.createdBy.value;
      var members := Messages.Recipients(chat.members, creator);
      var created := AddSystemMessage(s, chatId, GroupCreated, GroupNameData(chat.groupName), now);
      assert created.userChats == s.userChats;
      AddMembersUserChats(created, chatId, members, now, key);
      NotifiedKeepsRest(AddMembers(created, chatId, members, now), members, creator, AddedPayload(chat, chatId), now, send);
    }
  }

  /** A group written without a creator aborts as soon as it has a member, after its
      "created" message when it has a name and before it when it has none: nobody gets
      a userChat and nobody is notified. */
  lemma CreatorlessGroupAborts(s: Store, chatId: ChatId, chat: Chat, now: int, send: Transport)
    requires OneResponsePerToken(send)
    requires chat.isGroup && chat.createdBy.None? && chat.members != []
    ensures ChatCreatedEffect(s, chatId, Some(chat), now, send)
      == (if chat.groupName.Some? then CreateSystemMessage(s, chatId, GroupCreated, GroupNameData(chat.groupName), now).0 else s,
          None, Aborted)
  {
  }

  /** The shared notification deletes tokens and nothing else. */
  lemma NotifiedKeepsRest(s: Store, members: seq<UserId>, sender: UserId, payload: Payload, now: int, send: Transport)
    requires OneResponsePerToken(send)
    ensures var all := AllTokens(s, members);
      var sent := all != [] && UserById(s.users, sender).Some?;
      var r := if all != [] && UserById(s.users, sender).None? then s
               else DeleteTokens(s, ExpiredTokens(s, members, now) + if sent then RejectedTokens(all, send(TokenIds(all))) else []);
      r == s.(tokens := r.tokens)
  {
    var all := AllTokens(s, members);
    var sent := all != [] && UserById(s.users, sender).Some?;
    DeleteTokensFrame(s, ExpiredTokens(s, members, now) + if sent then RejectedTokens(all, send(TokenIds(all))) else []);
  }

  // ---- onChatUpdated ----

  /** `xs.filter(x => ys.findIndex(y => y === x) === -1)`: the members of xs missing from ys. */
  function Missing(xs: seq<UserId>, ys: seq<UserId>): (r: seq<UserId>)
    ensures forall m :: m in r <==> m in xs && m !in ys
  {
    if xs == [] then []
    else Missing(xs[..|xs| - 1], ys) + if xs[|xs| - 1] !in ys then [xs[|xs| - 1]] else []
  }

  /** Nothing is missing from a list that holds every member. */
  lemma {:induction false} NothingMissing(xs: seq<UserId>, ys: seq<UserId>)
    requires forall x :: x in xs ==> x in ys
    ensures Missing(xs, ys) == []
  {
    if xs != [] {
      NothingMissing(xs[..|xs| - 1], ys);
      assert xs[|xs| - 1] in xs;
    }
  }

  /** The message for a changed name. */
  function RenameRecords(before: Chat, after: Chat, now: int): seq<SystemRecord> {
    if before.groupName != after.groupName then [Record(GroupRenamed, NewGroupNameData(after.groupName), now)] else []
  }

  /** The message for a changed image. */
  function ImageRecords(before: Chat, after: Chat, now: int): seq<SystemRecord> {
    if before.groupImageUrl != after.groupImageUrl then [Record(GroupImageUpdated, NewGroupImageUrlData(after.groupImageUrl), now)] else []
  }

  /** The messages for a changed name and a changed image, in that order. */
  function ChangeRecords(before: Chat, after: Chat, now: int): seq<SystemRecord> {
    RenameRecords(before, after, now) + ImageRecords(before, after, now)
  }

  /** The rename and image messages can be stored: a name or an image that changes is
      not removed. */
  predicate ChangesStorable(before: Chat, after: Chat) {
    && (before.groupName != after.groupName ==> after.groupName.Some?)
    && (before.groupImageUrl != after.groupImageUrl ==> after.groupImageUrl.Some?)
  }

  /** The store after the rename and image messages, and whether both could be stored. */
  function AfterChanges(s: Store, chatId: ChatId, before: Chat, after: Chat, now: int): (Store, Outcome) {
    var renamed :=
      if before.groupName != after.groupName then CreateSystemMessage(s, chatId, GroupRenamed, NewGroupNameData(after.groupName), now)
      else (s, Completed);
    if renamed.1 == Aborted then renamed
    else if before.groupImageUrl != after.groupImageUrl then
      CreateSystemMessage(renamed.0, chatId, GroupImageUpdated, NewGroupImageUrlData(after.groupImageUrl), now)
    else renamed
  }

  /** The store after the "added" loop and the "removed" loop. */
  function MembershipChanges(s: Store, chatId: ChatId, before: Chat, after: Chat, now: int): Store {
    var added := AddMembers(s, chatId, Missing(after.members, before.members), now);
    RemoveMembers(added, chatId, Missing(before.members, after.members), now)
  }

  /** The rename and image messages write only system messages: both when the changes
      can be stored, otherwise the rename alone when the name is not the removed field. */
  lemma AfterChangesFrame(s: Store, chatId: ChatId, before: Chat, after: Chat, now: int)
    ensures var r := AfterChanges(s, chatId, before, after, now);
      && r.0 == s.(systemMessages := r.0.systemMessages)
      && (r.1 == Completed <==> ChangesStorable(before, after))
      && SystemMessagesOf(r.0, chatId) == SystemMessagesOf(s, chatId)
           + if ChangesStorable(before, after) then ChangeRecords(before, after, now)
             else if after.groupName.Some? then RenameRecords(before, after, now) else []
  {
    if before.groupName != after.groupName && after.groupName.None? {
      assert AfterChanges(s, chatId, before, after, now) == (s, Aborted);
    } else {
      var renamed :=
        if before.groupName != after.groupName then AddSystemMessage(s, chatId, GroupRenamed, NewGroupNameData(after.groupName), now)
        else s;
      assert renamed == s.(systemMessages := renamed.systemMessages);
      assert SystemMessagesOf(renamed, chatId) == SystemMessagesOf(s, chatId) + RenameRecords(before, after, now);
      if before.groupImageUrl != after.groupImageUrl && after.groupImageUrl.None? {
        assert AfterChanges(s, chatId, before, after, now) == (renamed, Aborted);
      } else {
        var updated :=
          if before.groupImageUrl != after.groupImageUrl then
            AddSystemMessage(renamed, chatId, GroupImageUpdated, NewGroupImageUrlData(after.groupImageUrl), now)
          else renamed;
        assert AfterChanges(s, chatId, before, after, now) == (updated, Completed);
        assert SystemMessagesOf(updated, chatId) == SystemMessagesOf(renamed, chatId) + ImageRecords(before, after, now);
        SeqAssoc(SystemMessagesOf(s, chatId), RenameRecords(before, after, now), ImageRecords(before, after, now));
      }
    }
  }

  /** The whole effect of `onChatUpdated` on `chats/{chatId}`; `change` is the document
      before and after the update. A name or image removed by the update aborts the
      trigger before the member loops. */
  function ChatUpdatedEffect(s: Store, chatId: ChatId, change: Option<(Chat, Chat)>, now: int): (Store, Outcome) {
    if change.None? then (s, Completed)
    else
      var (before, after) := change.value;
      if !before.isGroup || after.updatedFrom == Some(LEAVE_GROUP) then (s, Completed)
      else
        var changed := AfterChanges(s, chatId, before, after, now);
        if changed.1 == Aborted then changed
        else (MembershipChanges(changed.0, chatId, before, after, now), Completed)
  }

  /** `onChatUpdated` */
  method OnChatUpdated(s: Store, chatId: ChatId, change: Option<(Chat, Chat)>, now: int)
    returns (s': Store, outcome: Outcome)
    ensures (s', outcome) == ChatUpdatedEffect(s, chatId, change, now)
  {
    if change.None? {
      return s, Completed;
    }
    var (before, after) := change.value;
    if !before.isGroup {
      return s, Completed;
    }
    if after.updatedFrom == Some(LEAVE_GROUP) {
      return s, Completed;
    }
    s' := s;
    if before.groupName != after.groupName {
      var renamed := CreateSystemMessage(s', chatId, GroupRenamed, NewGroupNameData(after.groupName), now);
      if renamed.1 == Aborted {
        return s', Aborted;
      }
      s' := renamed.0;
    }
    if before.groupImageUrl != after.groupImageUrl {
      var updated := CreateSystemMessage(s', chatId, GroupImageUpdated, NewGroupImageUrlData(after.groupImageUrl), now);
      if updated.1 == Aborted {
        return s', Aborted;
      }
      s' := updated.0;
    }
    var newMembers := Missing(after.members, before.members);
    s' := AddMembersLoop(s', chatId, newMembers, now);
    var removedMembers := Missing(before.members, after.members);
    s' := RemoveMembersLoop(s', chatId, removedMembers, now);
    outcome := Completed;
  }

  /** A write that leaves a group document as it was produces no message and touches no
      userChat. */
  lemma UnchangedChatWritesNothing(s: Store, chatId: ChatId, chat: Chat, now: int)
    ensures ChatUpdatedEffect(s, chatId, Some((chat, chat)), now) == (s, Completed)
  {
    NothingMissing(chat.members, chat.members);
  }

  /** Once `leaveGroup` has set `metadata.updatedFrom`, the marker stays on the document,
      so every later update that does not clear it is skipped: renames and member
      changes made afterwards produce no message and no userChat. */
  lemma LeaveMarkerSkipsLaterUpdates(s: Store, chatId: ChatId, before: Chat, after: Chat, now: int)
    requires after.updatedFrom == Some(LEAVE_GROUP)
    ensures ChatUpdatedEffect(s, chatId, Some((before, after)), now) == (s, Completed)
  {
  }

  /** The messages of an update: rename, image, one per added member, one per removed
      member, in that order. When the update removes a name or an image that message
      cannot be stored: the trigger aborts there, after the rename if the name is kept. */
  lemma ChatUpdatedMessages(s: Store, chatId: ChatId, before: Chat, after: Chat, now: int)
    requires before.isGroup && after.updatedFrom != Some(LEAVE_GROUP)
    ensures var r := ChatUpdatedEffect(s, chatId, Some((before, after)), now);
      && (r.1 == Completed <==> ChangesStorable(before, after))
      && SystemMessagesOf(r.0, chatId) == SystemMessagesOf(s, chatId)
           + if ChangesStorable(before, after) then
               ChangeRecords(before, after, now)
               + AddedRecords(Missing(after.members, before.members), now)
               + RemovedRecords(Missing(before.members, after.members), now)
             else if after.groupName.Some? then RenameRecords(before, after, now) else []
  {
    AfterChangesFrame(s, chatId, before, after, now);
    if ChangesStorable(before, after) {
      StorableUpdateMessages(s, chatId, before, after, now);
    } else {
      var changed := AfterChanges(s, chatId, before, after, now);
      assert ChatUpdatedEffect(s, chatId, Some((before, after)), now) == (changed.0, Aborted);
    }
  }

  lemma StorableUpdateMessages(s: Store, chatId: ChatId, before: Chat, after: Chat, now: int)
    requires before.isGroup && after.updatedFrom != Some(LEAVE_GROUP) && ChangesStorable(before, after)
    ensures var r := ChatUpdatedEffect(s, chatId, Some((before, after)), now);
      && r.1 == Completed
      && SystemMessagesOf(r.0, chatId) == SystemMessagesOf(s, chatId)
           + (ChangeRecords(before, after, now)
              + AddedRecords(Missing(after.members, before.members), now)
              + RemovedRecords(Missing(before.members, after.members), now))
  {
    var changed := AfterChanges(s, chatId, before, after, now).0;
    AfterChangesFrame(s, chatId, before, after, now);
    var newMembers := Missing(after.members, before.members);
    var removedMembers := Missing(before.members, after.members);
    var added := AddMembers(changed, chatId, newMembers, now);
    assert ChatUpdatedEffect(s, chatId, Some((before, after)), now)
      == (RemoveMembers(added, chatId, removedMembers, now), Completed);
    AddMembersMessages(changed, chatId, newMembers, now, chatId);
    RemoveMembersMessages(added, chatId, removedMembers, now, chatId);
    var m0, c, ad, rm := SystemMessagesOf(s, chatId), ChangeRecords(before, after, now),
      AddedRecords(newMembers, now), RemovedRecords(removedMembers, now);
    assert SystemMessagesOf(added, chatId) == m0 + c + ad;
    Regroup(m0, c, ad, rm);
  }

  lemma SeqAssoc(a: seq<SystemRecord>, b: seq<SystemRecord>, c: seq<SystemRecord>)
    ensures a + b + c == a + (b + c)
  {
  }

  lemma Regroup(m0: seq<SystemRecord>, c: seq<SystemRecord>, ad: seq<SystemRecord>, rm: seq<SystemRecord>)
    ensures m0 + c + ad + rm == m0 + (c + ad + rm)
  {
  }

  /** The userChats of an update: a member who joined gets a new userChat, a member who
      left loses it, everybody else keeps theirs. An update that removes the name or the
      image changes no userChat. */
  lemma ChatUpdatedUserChats(s: Store, chatId: ChatId, before: Chat, after: Chat, now: int, key: (UserId, ChatId))
    requires before.isGroup && after.updatedFrom != Some(LEAVE_GROUP)
    ensures var r := ChatUpdatedEffect(s, chatId, Some((before, after)), now).0.userChats;
      if !ChangesStorable(before, after) then r == s.userChats
      else if key.1 == chatId && key.0 in after.members && key.0 !in before.members then
        key in r && r[key] == NewUserChat(chatId, now)
      else if key.1 == chatId && key.0 in before.members && key.0 !in after.members then
        key !in r
      else (key in r <==> key in s.userChats) && (key in r ==> r[key] == s.userChats[key])
  {
    var changed := AfterChanges(s, chatId, before, after, now).0;
    AfterChangesFrame(s, chatId, before, after, now);
    MembershipUserChats(changed, chatId, before, after, now, key);
  }

  lemma MembershipUserChats(s: Store, chatId: ChatId, before: Chat, after: Chat, now: int, key: (UserId, ChatId))
    ensures var r := MembershipChanges(s, chatId, before, after, now).userChats;
      if key.1 == chatId && key.0 in after.members && key.0 !in before.members then
        key in r && r[key] == NewUserChat(chatId, now)
      else if key.1 == chatId && key.0 in before.members && key.0 !in after.members then
        key !in r
      else (key in r <==> key in s.userChats) && (key in r ==> r[key] == s.userChats[key])
  {
    var newMembers := Missing(after.members, before.members);
    AddMembersUserChats(s, chatId, newMembers, now, key);
    RemoveMembersUserChats(AddMembers(s, chatId, newMembers, now), chatId, Missing(before.members, after.members), now, key);
  }
}
