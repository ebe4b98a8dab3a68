/** The client's read model of the user's chats (src/stores/chats.ts): a list of
    aggregates, one per chat the user sees, and the chat subscriptions keyed by userChat
    id. Snapshot listeners deliver document changes, which the handlers fold into the
    list; the getters look aggregates up and sort them. Each subscription is represented
    by the query it listens to, which stands for the unsubscribe function `onSnapshot`
    returns; navigation is a change of the current route. */
module ChatsStore {
  import opened Wrappers
  import opened Js
  import opened Models
  import opened Firestore
  import opened ServiceEntities
  import DateTime
  import UserChats

  /** A snapshot listener, standing for its unsubscribe function: the current user's
      userChats, or the chat with a given id. */
  datatype Subscription = UserChatsOf(username: string) | ChatById(chatId: Value)

  /** The router's current route: its name and its `id` parameter. */
  datatype Route = Route(name: string, id: Value)

  /** Where the store navigates when the open chat goes away. */
  const APP_ROUTE: Route := Route("app", Undefined)

  /** One entry of `snapshot.docChanges()`: its type and the decoded document. */
  datatype DocChange = DocChange(kind: string, doc: Obj)

  /** The store's state. */
  datatype State = State(userChats: seq<ChatAggregate>, chatsUnsubscribe: map<Value, Subscription>)

  // ---- lookups ----

  /** `findIndex(p)`: the first index whose aggregate satisfies `p`, or -1. */
  function FindIndex(xs: seq<ChatAggregate>, p: ChatAggregate -> bool): (i: int)
    ensures -1 <= i < |xs|
    ensures i >= 0 ==> p(xs[i]) && forall j :: 0 <= j < i ==> !p(xs[j])
    ensures i == -1 <==> forall j :: 0 <= j < |xs| ==> !p(xs[j])
  {
    if xs == [] then -1
    else if p(xs[0]) then 0
    else
      var k := FindIndex(xs[1..], p);
      assert forall j :: 1 <= j < |xs| ==> xs[j] == xs[1..][j - 1];
      if k == -1 then -1 else k + 1
  }

  /** `find(p)`: the first aggregate satisfying `p`, or undefined. */
  function Find(xs: seq<ChatAggregate>, p: ChatAggregate -> bool): (r: Option<ChatAggregate>)
    ensures r.None? <==> forall j :: 0 <= j < |xs| ==> !p(xs[j])
    ensures r.Some? ==> exists i :: 0 <= i < |xs| && xs[i] == r.value && p(r.value) && forall j :: 0 <= j < i ==> !p(xs[j])
  {
    var i := FindIndex(xs, p);
    if i == -1 then None else Some(xs[i])
  }

  /** `agg => agg.userChat.id === id` */
  function HasUserChatId(id: Value): ChatAggregate -> bool {
    (a: ChatAggregate) => StrictEq(Get(a.userChat, "id"), id)
  }

  /** `agg => agg.chat.id === id` */
  function HasChatId(id: Value): ChatAggregate -> bool {
    (a: ChatAggregate) => StrictEq(Get(a.chat, "id"), id)
  }

  /** The predicate `handleRemovedChat` passes as written, `chat => chat.chat.id ===
      chat.id`: its parameter shadows the removed chat, so each aggregate's chat id is
      compared with the aggregate's own `id`, which aggregates do not have. */
  function ChatIdIsOwnId(): ChatAggregate -> bool {
    (a: ChatAggregate) => StrictEq(Get(a.chat, "id"), Undefined)
  }

  /** `splice(i, 1)` */
  function RemoveAt(xs: seq<ChatAggregate>, i: nat): (r: seq<ChatAggregate>)
    requires i < |xs|
    ensures |r| == |xs| - 1
    ensures forall j :: 0 <= j < i ==> r[j] == xs[j]
    ensures forall j :: i <= j < |r| ==> r[j] == xs[j + 1]
  {
    xs[..i] + xs[i + 1..]
  }

  // ---- the handlers, as functions of the state ----

  /** `handleRemovedUserChat` on the list: the first aggregate with that userChat id is
      removed and the others keep their order; without one nothing changes. */
  function RemovedUserChat(xs: seq<ChatAggregate>, userChat: Obj): (r: seq<ChatAggregate>)
    ensures var i := FindIndex(xs, HasUserChatId(Get(userChat, "id")));
      if i == -1 then r == xs else r == RemoveAt(xs, i)
  {
    var i := FindIndex(xs, HasUserChatId(Get(userChat, "id")));
    if i == -1 then xs else RemoveAt(xs, i)
  }

  /** `handleRemovedUserChat`, with the navigation: when the aggregate is found and the
      open route is that chat, the router goes to the app page before the removal. */
  function RemovedUserChatRoute(xs: seq<ChatAggregate>, userChat: Obj, route: Route): (r: Route)
    ensures r != route ==> r == APP_ROUTE
    ensures r == APP_ROUTE <==>
      (|| route == APP_ROUTE
       || (FindIndex(xs, HasUserChatId(Get(userChat, "id"))) != -1 && route.name == "chat" && StrictEq(route.id, Get(userChat, "id"))))
  {
    if FindIndex(xs, HasUserChatId(Get(userChat, "id"))) != -1 && route.name == "chat" && StrictEq(route.id, Get(userChat, "id"))
    then APP_ROUTE else route
  }

  /** `handleModifiedUserChat` on the list: the userChat of the first aggregate with
      that userChat id is replaced; nothing else changes. */
  function ModifiedUserChat(xs: seq<ChatAggregate>, userChat: Obj): (r: seq<ChatAggregate>)
    ensures |r| == |xs|
    ensures var i := FindIndex(xs, HasUserChatId(Get(userChat, "id")));
      forall j :: 0 <= j < |xs| ==> r[j] == if j == i then xs[j].(userChat := userChat) else xs[j]
  {
    var i := FindIndex(xs, HasUserChatId(Get(userChat, "id")));
    if i == -1 then xs else xs[i := xs[i].(userChat := userChat)]
  }

  /** `handleModifiedChat` on the list: the chat of the first aggregate with that chat
      id is replaced; nothing else changes. */
  function ModifiedChat(xs: seq<ChatAggregate>, chat: Obj): (r: seq<ChatAggregate>)
    ensures |r| == |xs|
    ensures var i := FindIndex(xs, HasChatId(Get(chat, "id")));
      forall j :: 0 <= j < |xs| ==> r[j] == if j == i then xs[j].(chat := chat) else xs[j]
  {
    var i := FindIndex(xs, HasChatId(Get(chat, "id")));
    if i == -1 then xs else xs[i := xs[i].(chat := chat)]
  }

  /** `handleRemovedChat` as written: it removes the first aggregate whose chat has no
      id, whatever chat was removed, and then calls the subscription stored under the
      removed chat's id, if any. The map keeps the entry. */
  function RemovedChat(st: State, chat: Obj): (r: (State, Option<Subscription>))
    ensures r.0.chatsUnsubscribe == st.chatsUnsubscribe
    ensures var i := FindIndex(st.userChats, ChatIdIsOwnId());
      if i == -1 then r == (st, None)
      else
        && r.0.userChats == RemoveAt(st.userChats, i)
        && r.1 == if Get(chat, "id") in st.chatsUnsubscribe then Some(st.chatsUnsubscribe[Get(chat, "id")]) else None
  {
    var i := FindIndex(st.userChats, ChatIdIsOwnId());
    if i == -1 then (st, None)
    else
      var id := Get(chat, "id");
      (st.(userChats := RemoveAt(st.userChats, i)), if id in st.chatsUnsubscribe then Some(st.chatsUnsubscribe[id]) else None)
  }

  /** The id `handleAddedUserChat` queries: `userChat.chat.id`. Reading it from a null or
      missing reference throws, and the query rejects an undefined id. */
  function ChatQueryId(userChat: Obj): (r: Option<Value>)
    ensures r.Some? ==> r.value == IdOf(Get(userChat, "chat")) && r.value.Str? && r.value.s != ""
    ensures r.None? <==> !(Get(userChat, "chat").Ref? && |Get(userChat, "chat").path| > 0 && Get(userChat, "chat").path[|Get(userChat, "chat").path| - 1] != "")
  {
    var ref := Get(userChat, "chat");
    if ref.Null? || ref.Undefined? || IdOf(ref).Undefined? || IdOf(ref) == Str("") then None else Some(IdOf(ref))
  }

  /** `handleAddedUserChat`: subscribes to the userChat's chat and stores the
      subscription under the userChat's id; the list is untouched. */
  function AddedUserChat(st: State, userChat: Obj): (r: (State, Outcome))
    ensures r.0.userChats == st.userChats
    ensures r.1 == Completed <==> ChatQueryId(userChat).Some?
    ensures r.1 == Completed ==>
      r.0.chatsUnsubscribe == st.chatsUnsubscribe[Get(userChat, "id") := ChatById(ChatQueryId(userChat).value)]
    ensures r.1 == Aborted ==> r.0 == st
  {
    match ChatQueryId(userChat)
    case None => (st, Aborted)
    case Some(chatId) => (st.(chatsUnsubscribe := st.chatsUnsubscribe[Get(userChat, "id") := ChatById(chatId)]), Completed)
  }

  /** `handleAddedGroupChat`: one group aggregate is appended. */
  function AddedGroupChat(xs: seq<ChatAggregate>, userChat: Obj, chat: Obj): (r: seq<ChatAggregate>)
    ensures |r| == |xs| + 1 && r[..|xs|] == xs
    ensures r[|xs|].otherUserProfile.None? && r[|xs|].chat == chat && r[|xs|].userChat == userChat
  {
    xs + [GroupChatAggregate(chat, userChat)]
  }

  /** `chat.members.length`, for the values a decoded chat can hold: an array's number of
      items, a string's number of UTF-16 code units, and undefined for anything else. */
  function LengthOf(v: Value): Value {
    match v
    case Arr(items) => Num(|items|)
    case Str(s) => Num(Length(s))
    case _ => Undefined
  }

  /** `member => member.id !== currentUserId` */
  function FirstOtherMember(members: seq<Value>, currentUserId: Value): (r: Option<Value>)
    ensures r.None? <==> forall i :: 0 <= i < |members| ==> StrictEq(IdOf(members[i]), currentUserId)
    ensures r.Some? ==> r.value in members && !StrictEq(IdOf(r.value), currentUserId)
  {
    if members == [] then None
    else if !StrictEq(IdOf(members[0]), currentUserId) then Some(members[0])
    else
      var r := FirstOtherMember(members[1..], currentUserId);
      assert forall i :: 1 <= i < |members| ==> members[i] == members[1..][i - 1];
      r
  }

  /** `handleAddedPrivateChat`: a chat whose members are not exactly two is ignored;
      otherwise the first member whose id differs from the current user's is the other
      user, whose profile (as the users store returns it for that id) goes into the
      appended aggregate. With no such member, or members that are not an array, it
      throws. */
  function AddedPrivateChat(xs: seq<ChatAggregate>, userChat: Obj, chat: Obj, currentUserId: Value,
                            profileOf: Value -> Value): (r: (seq<ChatAggregate>, Outcome))
    ensures !StrictEq(LengthOf(Get(chat, "members")), Num(2)) ==> r == (xs, Completed)
    ensures r.1 == Completed && r.0 != xs ==>
      && Get(chat, "members").Arr?
      && var other := FirstOtherMember(Get(chat, "members").items, currentUserId);
      && other.Some?
      && r.0 == xs + [PrivateChatAggregate(chat, profileOf(IdOf(other.value)), userChat)]
    ensures r.1 == Aborted ==> r.0 == xs
  {
    var members := Get(chat, "members");
    if !StrictEq(LengthOf(members), Num(2)) then (xs, Completed)
    else if !members.Arr? then (xs, Aborted)
    else
      match FirstOtherMember(members.items, currentUserId)
      case None => (xs, Aborted)
      case Some(other) =>
        var otherUserId := IdOf(other);
        (xs + [PrivateChatAggregate(chat, profileOf(otherUserId), userChat)], Completed)
  }

  /** A members string of one astral character has length 2, so it passes the length
      guard and `members.find` throws, as a string has no `find`. */
  lemma AstralMembersStringThrows(xs: seq<ChatAggregate>, userChat: Obj, chat: Obj, currentUserId: Value,
                                  profileOf: Value -> Value)
    requires Get(chat, "members") == Str("\U{1F600}")
    ensures AddedPrivateChat(xs, userChat, chat, currentUserId, profileOf) == (xs, Aborted)
  {
    assert Length("\U{1F600}") == 2;
  }

  /** One change delivered to the userChats listener of `fetchUserChats`. */
  function UserChatChange(st: State, route: Route, change: DocChange): (State, Route, Outcome) {
    if change.kind == "added" then
      var (st', outcome) := AddedUserChat(st, change.doc);
      (st', route, outcome)
    else if change.kind == "modified" then
      (st.(userChats := ModifiedUserChat(st.userChats, change.doc)), route, Completed)
    else if change.kind == "removed" then
      (st.(userChats := RemovedUserChat(st.userChats, change.doc)),
       RemovedUserChatRoute(st.userChats, change.doc, route), Completed)
    else (st, route, Completed)
  }

  /** The userChats listener over one snapshot: the changes in order, stopping at the
      first that throws. */
  function UserChatChanges(st: State, route: Route, changes: seq<DocChange>): (State, Route, Outcome) {
    if changes == [] then (st, route, Completed)
    else
      var (st', route', outcome) := UserChatChanges(st, route, changes[..|changes| - 1]);
      if outcome == Aborted then (st', route', Aborted)
      else UserChatChange(st', route', changes[|changes| - 1])
  }

  /** Once a change has thrown, the later changes of the snapshot do nothing. */
  lemma {:induction false} UserChatChangesStopAtThrow(st: State, route: Route, changes: seq<DocChange>, i: nat)
    requires i <= |changes|
    requires UserChatChanges(st, route, changes[..i]).2 == Aborted
    ensures UserChatChanges(st, route, changes) == UserChatChanges(st, route, changes[..i])
    decreases |changes| - i
  {
    if i < |changes| {
      assert changes[..i + 1][..i] == changes[..i];
      UserChatChangesStopAtThrow(st, route, changes, i + 1);
    } else {
      assert changes[..i] == changes;
    }
  }

  /** One change delivered to the chat listener `handleAddedUserChat` sets up for
      `userChat`; a removal reports the subscription it calls. */
  function ChatChange(st: State, userChat: Obj, change: DocChange, currentUserId: Value, profileOf: Value -> Value)
    : (State, Option<Subscription>, Outcome)
  {
    if change.kind == "added" then
      if Truthy(Get(change.doc, "isGroup")) then
        (st.(userChats := AddedGroupChat(st.userChats, userChat, change.doc)), None, Completed)
      else
        var (xs, outcome) := AddedPrivateChat(st.userChats, userChat, change.doc, currentUserId, profileOf);
        (st.(userChats := xs), None, outcome)
    else if change.kind == "modified" then
      (st.(userChats := ModifiedChat(st.userChats, change.doc)), None, Completed)
    else if change.kind == "removed" then
      var (st', called) := RemovedChat(st, change.doc);
      (st', called, Completed)
    else (st, None, Completed)
  }

  /** The chat listener over one snapshot: the changes in order, stopping at the first
      that throws, with the subscriptions removals called, in order. */
  function ChatChanges(st: State, userChat: Obj, changes: seq<DocChange>, currentUserId: Value, profileOf: Value -> Value)
    : (State, seq<Subscription>, Outcome)
  {
    if changes == [] then (st, [], Completed)
    else
      var (st', called, outcome) := ChatChanges(st, userChat, changes[..|changes| - 1], currentUserId, profileOf);
      if outcome == Aborted then (st', called, Aborted)
      else
        var (st'', c, outcome') := ChatChange(st', userChat, changes[|changes| - 1], currentUserId, profileOf);
        (st'', called + (if c.Some? then [c.value] else []), outcome')
  }

  /** Once a change has thrown, the later changes of the snapshot do nothing. */
  lemma {:induction false} ChatChangesStopAtThrow(st: State, userChat: Obj, changes: seq<DocChange>,
                                                  currentUserId: Value, profileOf: Value -> Value, i: nat)
    requires i <= |changes|
    requires ChatChanges(st, userChat, changes[..i], currentUserId, profileOf).2 == Aborted
    ensures ChatChanges(st, userChat, changes, currentUserId, profileOf) == ChatChanges(st, userChat, changes[..i], currentUserId, profileOf)
    decreases |changes| - i
  {
    if i < |changes| {
      assert changes[..i + 1][..i] == changes[..i];
      ChatChangesStopAtThrow(st, userChat, changes, currentUserId, profileOf, i + 1);
    } else {
      assert changes[..i] == changes;
    }
  }

  // ---- sorting ----

  /** `a.userChat?.updatedAt` */
  function UpdatedAt(a: ChatAggregate): Value {
    Get(a.userChat, "updatedAt")
  }

  /** The comparator of `getChats`, `b.userChat?.updatedAt - a.userChat?.updatedAt`,
      with a NaN difference counted as equal, as `Array.prototype.sort` does. A positive
      result puts `a` after `b`. */
  function CompareUpdatedAt(a: ChatAggregate, b: ChatAggregate): (c: int)
    ensures ToNumber(UpdatedAt(a)).NaN? || ToNumber(UpdatedAt(b)).NaN? ==> c == 0
    ensures ToNumber(UpdatedAt(a)).Finite? && ToNumber(UpdatedAt(b)).Finite? ==>
      c == ToNumber(UpdatedAt(b)).n - ToNumber(UpdatedAt(a)).n
  {
    match (ToNumber(UpdatedAt(b)), ToNumber(UpdatedAt(a)))
    case (Finite(x), Finite(y)) => x - y
    case _ => 0
  }

  /** One step of a stable insertion sort: `x` goes after every element of the sorted
      `r` that does not sort after it. */
  function Insert(r: seq<ChatAggregate>, x: ChatAggregate, cmp: (ChatAggregate, ChatAggregate) -> int)
    : (r': seq<ChatAggregate>)
    ensures multiset(r') == multiset(r) + multiset{x}
  {
    if r == [] then [x]
    else if cmp(r[|r| - 1], x) > 0 then
      assert r == r[..|r| - 1] + [r[|r| - 1]];
      Insert(r[..|r| - 1], x, cmp) + [r[|r| - 1]]
    else r + [x]
  }

  /** `xs.sort(cmp)`: a stable sort, here insertion sort. */
  function SortWith(xs: seq<ChatAggregate>, cmp: (ChatAggregate, ChatAggregate) -> int): (r: seq<ChatAggregate>)
    ensures multiset(r) == multiset(xs)
  {
    if xs == [] then []
    else
      assert xs == xs[..|xs| - 1] + [xs[|xs| - 1]];
      Insert(SortWith(xs[..|xs| - 1], cmp), xs[|xs| - 1], cmp)
  }

  /** When no userChat of the list has a numeric `updatedAt`, every comparison is NaN,
      counted as equal, and the sort leaves the list as it is. */
  lemma {:induction false} NaNKeepsOrder(xs: seq<ChatAggregate>)
    requires forall i :: 0 <= i < |xs| ==> ToNumber(UpdatedAt(xs[i])).NaN?
    ensures SortWith(xs, CompareUpdatedAt) == xs
  {
    if xs != [] {
      var init, last := xs[..|xs| - 1], xs[|xs| - 1];
      assert xs == init + [last];
      assert forall i :: 0 <= i < |init| ==> init[i] == xs[i];
      NaNKeepsOrder(init);
      AppendWhenNotAfter(init, last, CompareUpdatedAt);
      SortStep(xs, CompareUpdatedAt);
    }
  }

  lemma SortStep(xs: seq<ChatAggregate>, cmp: (ChatAggregate, ChatAggregate) -> int)
    requires xs != []
    ensures SortWith(xs, cmp) == Insert(SortWith(xs[..|xs| - 1], cmp), xs[|xs| - 1], cmp)
  {
  }

  /** `x` goes last when the last element of `r` does not sort after it. */
  lemma AppendWhenNotAfter(r: seq<ChatAggregate>, x: ChatAggregate, cmp: (ChatAggregate, ChatAggregate) -> int)
    requires r != [] ==> cmp(r[|r| - 1], x) <= 0
    ensures Insert(r, x, cmp) == r + [x]
  {
  }

  /** As written, `getChats` never reorders: the userChats the store decodes have no
      `updatedAt`, so every comparison is `undefined - undefined`, which is NaN. */
  lemma GetChatsKeepsArrivalOrder(xs: seq<ChatAggregate>)
    requires forall i :: 0 <= i < |xs| ==> "updatedAt" !in xs[i].userChat
    ensures SortWith(xs, CompareUpdatedAt) == xs
  {
    forall i | 0 <= i < |xs| ensures ToNumber(UpdatedAt(xs[i])).NaN? {
      assert UpdatedAt(xs[i]) == Undefined;
    }
    NaNKeepsOrder(xs);
  }

  /** The userChat carries a numeric `updatedAt`. */
  predicate HasUpdatedAt(a: ChatAggregate) {
    ToNumber(UpdatedAt(a)).Finite?
  }

  /** The numeric `updatedAt`, 0 when there is none. */
  function UpdatedAtKey(a: ChatAggregate): int {
    match ToNumber(UpdatedAt(a))
    case Finite(n) => n
    case NaN => 0
  }

  predicate AllHaveUpdatedAt(r: seq<ChatAggregate>) {
    forall i :: 0 <= i < |r| ==> HasUpdatedAt(r[i])
  }

  /** Newest first. */
  predicate NewestFirst(r: seq<ChatAggregate>) {
    forall i, j :: 0 <= i < j < |r| ==> UpdatedAtKey(r[i]) >= UpdatedAtKey(r[j])
  }

  /** Every element of an insertion is the inserted one or one of the list's. */
  lemma {:induction false} InsertMembers(r: seq<ChatAggregate>, x: ChatAggregate, cmp: (ChatAggregate, ChatAggregate) -> int)
    ensures forall y :: y in Insert(r, x, cmp) ==> y == x || y in r
  {
    if r != [] && cmp(r[|r| - 1], x) > 0 {
      var init := r[..|r| - 1];
      InsertMembers(init, x, cmp);
      assert Insert(r, x, cmp) == Insert(init, x, cmp) + [r[|r| - 1]];
      forall y | y in init ensures y in r {
        var k :| 0 <= k < |init| && init[k] == y;
        assert r[k] == y;
      }
    }
  }

  /** A newest-first list stays newest first when an element no newer than all of it
      is appended. */
  lemma AppendOldest(m: seq<ChatAggregate>, y: ChatAggregate)
    requires NewestFirst(m)
    requires forall i :: 0 <= i < |m| ==> UpdatedAtKey(m[i]) >= UpdatedAtKey(y)
    ensures NewestFirst(m + [y])
  {
    var r := m + [y];
    forall i, j | 0 <= i < j < |r| ensures UpdatedAtKey(r[i]) >= UpdatedAtKey(r[j]) {
      assert r[i] == m[i];
      if j < |m| {
        assert r[j] == m[j];
      }
    }
  }

  /** Inserting keeps every element's `updatedAt` numeric. */
  lemma InsertAllHave(r: seq<ChatAggregate>, x: ChatAggregate)
    requires AllHaveUpdatedAt(r) && HasUpdatedAt(x)
    ensures AllHaveUpdatedAt(Insert(r, x, CompareUpdatedAt))
  {
    var r' := Insert(r, x, CompareUpdatedAt);
    InsertMembers(r, x, CompareUpdatedAt);
    forall i | 0 <= i < |r'| ensures HasUpdatedAt(r'[i]) {
      assert r'[i] in r';
      if r'[i] != x {
        assert r'[i] in r;
        var k :| 0 <= k < |r| && r[k] == r'[i];
      }
    }
  }

  /** The insertion moved `x` before the last element: the rest of the list is no
      older than that element. */
  lemma InsertedBeforeLast(init: seq<ChatAggregate>, last: ChatAggregate, x: ChatAggregate)
    requires NewestFirst(init + [last])
    requires UpdatedAtKey(x) > UpdatedAtKey(last)
    ensures var m := Insert(init, x, CompareUpdatedAt);
      forall i :: 0 <= i < |m| ==> UpdatedAtKey(m[i]) >= UpdatedAtKey(last)
  {
    var r := init + [last];
    var m := Insert(init, x, CompareUpdatedAt);
    InsertMembers(init, x, CompareUpdatedAt);
    forall i | 0 <= i < |m| ensures UpdatedAtKey(m[i]) >= UpdatedAtKey(last) {
      assert m[i] in m;
      if m[i] != x {
        var k :| 0 <= k < |init| && init[k] == m[i];
        assert r[k] == init[k] && r[|init|] == last;
      }
    }
  }

  lemma {:induction false} InsertNewestFirst(r: seq<ChatAggregate>, x: ChatAggregate)
    requires AllHaveUpdatedAt(r) && HasUpdatedAt(x) && NewestFirst(r)
    ensures var r' := Insert(r, x, CompareUpdatedAt);
      AllHaveUpdatedAt(r') && NewestFirst(r')
  {
    InsertAllHave(r, x);
    if r != [] {
      var init, last := r[..|r| - 1], r[|r| - 1];
      assert r == init + [last];
      assert AllHaveUpdatedAt(init) && NewestFirst(init) && HasUpdatedAt(last);
      if CompareUpdatedAt(last, x) > 0 {
        InsertNewestFirst(init, x);
        InsertedBeforeLast(init, last, x);
        AppendOldest(Insert(init, x, CompareUpdatedAt), last);
      } else {
        forall i | 0 <= i < |r| ensures UpdatedAtKey(r[i]) >= UpdatedAtKey(x) {
          assert UpdatedAtKey(r[i]) >= UpdatedAtKey(last);
        }
        AppendOldest(r, x);
      }
    }
  }

  lemma {:induction false} SortNewestFirst(xs: seq<ChatAggregate>)
    requires AllHaveUpdatedAt(xs)
    ensures var r := SortWith(xs, CompareUpdatedAt);
      AllHaveUpdatedAt(r) && NewestFirst(r)
  {
    if xs != [] {
      var init := xs[..|xs| - 1];
      SortNewestFirst(init);
      InsertNewestFirst(SortWith(init, CompareUpdatedAt), xs[|xs| - 1]);
    }
  }

  /** `UserChatEntity.transformFromFirestore` with the `updatedAt` field the models'
      decoder has, `Number(data.updatedAt) || 0`. */
  function UserChatFromIntended(data: Obj): (r: Obj)
    ensures r.Keys == UserChatFrom(data).Keys + {"updatedAt"}
    ensures forall k :: k in UserChatFrom(data) ==> r[k] == UserChatFrom(data)[k]
    ensures r["updatedAt"] == Num(NumberOrZero(Get(data, "updatedAt")))
  {
    UserChatFrom(data)["updatedAt" := Num(NumberOrZero(Get(data, "updatedAt")))]
  }

  /** With userChats decoded with their `updatedAt`, `getChats` orders the chats newest
      first, and keeps every aggregate. */
  lemma IntendedGetChatsNewestFirst(xs: seq<ChatAggregate>)
    requires forall i :: 0 <= i < |xs| ==> exists data :: xs[i].userChat == UserChatFromIntended(data)
    ensures var r := SortWith(xs, CompareUpdatedAt);
      && multiset(r) == multiset(xs)
      && AllHaveUpdatedAt(r)
      && NewestFirst(r)
  {
    forall i | 0 <= i < |xs| ensures HasUpdatedAt(xs[i]) {
      var data :| xs[i].userChat == UserChatFromIntended(data);
      assert UpdatedAt(xs[i]) == Num(NumberOrZero(Get(data, "updatedAt")));
    }
    SortNewestFirst(xs);
  }

  // ---- lemmas about the handlers ----

  /** After `handleModifiedUserChat`, looking the userChat id up finds the new
      userChat, when an aggregate had that id. */
  lemma ModifiedUserChatIsFound(xs: seq<ChatAggregate>, userChat: Obj)
    requires exists j :: 0 <= j < |xs| && HasUserChatId(Get(userChat, "id"))(xs[j])
    ensures var r := Find(ModifiedUserChat(xs, userChat), HasUserChatId(Get(userChat, "id")));
      r.Some? && r.value.userChat == userChat
  {
    var id := Get(userChat, "id");
    var i := FindIndex(xs, HasUserChatId(id));
    var ys := ModifiedUserChat(xs, userChat);
    assert ys[i] == xs[i].(userChat := userChat);
    assert HasUserChatId(id)(ys[i]);
    assert forall j :: 0 <= j < i ==> ys[j] == xs[j];
  }

  /** Every aggregate whose chat was decoded from a snapshot has a string id, so the
      shadowed predicate of `handleRemovedChat` matches none of them and the handler
      does nothing: the aggregate stays, and no subscription is called. */
  lemma RemovedChatIgnoresDecodedChats(st: State, chat: Obj)
    requires forall j :: 0 <= j < |st.userChats| ==> Get(st.userChats[j].chat, "id").Str?
    ensures RemovedChat(st, chat) == (st, None)
  {
    assert FindIndex(st.userChats, ChatIdIsOwnId()) == -1;
  }

  /** The one aggregate `handleRemovedChat` can remove is the first whose chat has no
      id, even when the removed chat is another. */
  lemma RemovedChatRemovesIdlessChat(st: State, chat: Obj, i: nat)
    requires i < |st.userChats| && "id" !in st.userChats[i].chat
    requires forall j :: 0 <= j < i ==> Get(st.userChats[j].chat, "id").Str?
    ensures RemovedChat(st, chat).0.userChats == RemoveAt(st.userChats, i)
  {
    assert ChatIdIsOwnId()(st.userChats[i]);
  }

  /** A private chat between the current user and another user appends one aggregate
      holding the other user's profile. */
  lemma PrivateChatShowsOtherMember(xs: seq<ChatAggregate>, userChat: Obj, chat: Obj,
                                    me: string, other: string, profileOf: Value -> Value)
    requires Get(chat, "members") == Arr([Ref(["users", me]), Ref(["users", other])])
    requires other != me
    ensures AddedPrivateChat(xs, userChat, chat, Str(me), profileOf)
      == (xs + [PrivateChatAggregate(chat, profileOf(Str(other)), userChat)], Completed)
  {
    var members := [Ref(["users", me]), Ref(["users", other])];
    assert IdOf(members[0]) == Str(me) && IdOf(members[1]) == Str(other);
    assert FirstOtherMember(members[1..], Str(me)) == Some(members[1]);
  }

  /** A chat with other than two members leaves the list as it is. */
  lemma NotTwoMembersIgnored(xs: seq<ChatAggregate>, userChat: Obj, chat: Obj, currentUserId: Value,
                             profileOf: Value -> Value)
    requires Get(chat, "members").Arr? && |Get(chat, "members").items| != 2
    ensures AddedPrivateChat(xs, userChat, chat, currentUserId, profileOf) == (xs, Completed)
  {
  }

  // ---- creating chats ----

  /** The reference `doc(db, "users", id)` needs a non-empty id; otherwise it throws
      before anything is written. */
  predicate IsDocId(id: Option<string>) {
    TruthyStr(id)
  }

  /** `createPrivateChat(username)`: the chat document under the generated id `chatId`,
      with the two members in that order and no `createdBy` (the key is written as
      `createBy`), then the creator's userChat with a zero unread count and
      `updatedAt` = the time in seconds. Nothing is written for the other user. */
  function PrivateChatCreated(s: Store, currentUsername: Option<string>, username: string, chatId: ChatId, now: int)
    : (r: (Store, Result<ChatId, string>))
    ensures r.1.Err? <==> !IsDocId(currentUsername) || username == ""
    ensures r.1.Err? ==> r.0 == s
    ensures r.1.Ok? ==>
      && r.1.value == chatId
      && r.0 == s.(chats := s.chats[chatId := Chat(false, None, None, [currentUsername.value, username], None, None)],
                   userChats := s.userChats[(currentUsername.value, chatId) :=
                     UserChat(chatId, 0, false, None, Some(DateTime.NowToUtcTimestamp(now)))])
  {
    if !IsDocId(currentUsername) || username == "" then (s, Err("invalid document reference"))
    else
      var me := currentUsername.value;
      var s1 := s.(chats := s.chats[chatId := Chat(false, None, None, [me, username], None, None)]);
      (s1.(userChats := s1.userChats[(me, chatId) := UserChat(chatId, 0, false, None, Some(DateTime.NowToUtcTimestamp(now)))]),
       Ok(chatId))
  }

  /** `createGroupChat(groupChat)`: the chat under the group's own id, created by the
      current user, then the creator's userChat. A missing name or image is an
      `undefined` field, which the write rejects. */
  function GroupChatCreated(s: Store, currentUsername: Option<string>, chatId: ChatId, groupName: Option<string>,
                            groupImageUrl: Option<string>, members: seq<UserId>, now: int)
    : (r: (Store, Result<ChatId, string>))
    ensures r.1.Err? <==> !IsDocId(currentUsername) || chatId == "" || groupName.None? || groupImageUrl.None?
    ensures r.1.Err? ==> r.0 == s
    ensures r.1.Ok? ==>
      && r.0.chats == s.chats[chatId := Chat(true, groupName, groupImageUrl, members, currentUsername, None)]
      && r.0.userChats == s.userChats[(currentUsername.value, chatId) :=
           UserChat(chatId, 0, false, None, Some(DateTime.NowToUtcTimestamp(now)))]
      && r.0 == s.(chats := r.0.chats, userChats := r.0.userChats)
  {
    if !IsDocId(currentUsername) || chatId == "" then (s, Err("invalid document reference"))
    else if groupName.None? || groupImageUrl.None? then (s, Err("unsupported field value: undefined"))
    else
      var me := currentUsername.value;
      var s1 := s.(chats := s.chats[chatId := Chat(true, groupName, groupImageUrl, members, currentUsername, None)]);
      (s1.(userChats := s1.userChats[(me, chatId) := UserChat(chatId, 0, false, None, Some(DateTime.NowToUtcTimestamp(now)))]),
       Ok(chatId))
  }

  /** A private chat the other user has no userChat of yet goes away as soon as its
      creator deletes their userChat: `onUserChatDeleted` finds the other member without
      one and deletes the chat. */
  lemma AbandonedPrivateChatIsDeleted(s: Store, me: string, username: string, chatId: ChatId, now: int,
                                      deleted: UserChat)
    requires me != "" && username != "" && username != me && chatId != ""
    requires (username, chatId) !in s.userChats
    ensures var created := PrivateChatCreated(s, Some(me), username, chatId, now).0;
      var afterDelete := created.(userChats := created.userChats - {(me, chatId)});
      UserChats.UserChatDeletedEffect(afterDelete, me, chatId, Some(deleted))
        == (afterDelete.(chats := afterDelete.chats - {chatId}), Completed)
  {
    var members := [me, username];
    assert UserChats.FirstOther(members[1..], me) == Some(username);
  }

  /** A group the current user created is the current user's to delete: when they delete
      their userChat, every member's userChat and the chat go. */
  lemma CreatorDeletingGroupDeletesIt(s: Store, me: string, chatId: ChatId, groupName: string, groupImageUrl: string,
                                      members: seq<UserId>, now: int, deleted: UserChat)
    requires me != "" && chatId != ""
    ensures var g := GroupChatCreated(s, Some(me), chatId, Some(groupName), Some(groupImageUrl), members, now).0;
      UserChats.UserChatDeletedEffect(g, me, chatId, Some(deleted))
        == (g.(userChats := UserChats.DeleteUserChats(g.userChats, chatId, members), chats := g.chats - {chatId}), Completed)
  {
  }

  // ---- the store ----

  /** `useChatStore`: the aggregates and the chat subscriptions by userChat id. */
  class ChatStore {
    var userChats: seq<ChatAggregate>
    var chatsUnsubscribe: map<Value, Subscription>

    /** The initial state: no aggregates, no subscriptions. */
    constructor()
      ensures userChats == [] && chatsUnsubscribe == map[]
    {
      userChats := [];
      chatsUnsubscribe := map[];
    }

    function StateOf(): State
      reads this
    {
      State(userChats, chatsUnsubscribe)
    }

    /** `fetchUserChats`: the list is emptied first; without a current username nothing
        is subscribed, otherwise the user's userChats are. */
    method FetchUserChats(currentUsername: Option<string>) returns (r: Option<Subscription>)
      modifies this
      ensures userChats == [] && chatsUnsubscribe == old(chatsUnsubscribe)
      ensures r.None? <==> !TruthyStr(currentUsername)
      ensures r.Some? ==> r.value == UserChatsOf(currentUsername.value)
    {
      userChats := [];
      if !TruthyStr(currentUsername) {
        return None;
      }
      return Some(UserChatsOf(currentUsername.value));
    }

    /** The userChats listener of `fetchUserChats` over one snapshot. */
    method OnUserChatsSnapshot(changes: seq<DocChange>, route: Route) returns (route': Route, outcome: Outcome)
      modifies this
      ensures (StateOf(), route', outcome) == UserChatChanges(old(StateOf()), route, changes)
    {
      route', outcome := route, Completed;
      var i := 0;
      while i < |changes|
        invariant 0 <= i <= |changes|
        invariant (StateOf(), route', outcome) == UserChatChanges(old(StateOf()), route, changes[..i])
        invariant outcome == Completed
      {
        assert changes[..i + 1][..i] == changes[..i];
        var change := changes[i];
        if change.kind == "added" {
          outcome := HandleAddedUserChat(change.doc);
        } else if change.kind == "modified" {
          HandleModifiedUserChat(change.doc);
        } else if change.kind == "removed" {
          route' := HandleRemovedUserChat(change.doc, route');
        }
        i := i + 1;
        if outcome == Aborted {
          UserChatChangesStopAtThrow(old(StateOf()), route, changes, i);
          return;
        }
      }
      assert changes[..i] == changes;
    }

    /** `handleRemovedUserChat` */
    method HandleRemovedUserChat(userChat: Obj, route: Route) returns (route': Route)
      modifies this
      ensures userChats == RemovedUserChat(old(userChats), userChat)
      ensures route' == RemovedUserChatRoute(old(userChats), userChat, route)
      ensures chatsUnsubscribe == old(chatsUnsubscribe)
    {
      var i := FindIndex(userChats, HasUserChatId(Get(userChat, "id")));
      if i == -1 {
        return route;
      }
      route' := route;
      if route.name == "chat" && StrictEq(route.id, Get(userChat, "id")) {
        route' := APP_ROUTE;
      }
      userChats := userChats[..i] + userChats[i + 1..];
    }

    /** `handleAddedUserChat` */
    method HandleAddedUserChat(userChat: Obj) returns (outcome: Outcome)
      modifies this
      ensures (StateOf(), outcome) == AddedUserChat(old(StateOf()), userChat)
    {
      var chatId := ChatQueryId(userChat);
      if chatId.None? {
        return Aborted;
      }
      chatsUnsubscribe := chatsUnsubscribe[Get(userChat, "id") := ChatById(chatId.value)];
      return Completed;
    }

    /** The chat listener `handleAddedUserChat` sets up, over one snapshot. */
    method OnChatSnapshot(userChat: Obj, changes: seq<DocChange>, currentUserId: Value, profileOf: Value -> Value)
      returns (called: seq<Subscription>, outcome: Outcome)
      modifies this
      ensures (StateOf(), called, outcome) == ChatChanges(old(StateOf()), userChat, changes, currentUserId, profileOf)
    {
      called, outcome := [], Completed;
      var i := 0;
      while i < |changes|
        invariant 0 <= i <= |changes|
        invariant (StateOf(), called, outcome) == ChatChanges(old(StateOf()), userChat, changes[..i], currentUserId, profileOf)
        invariant outcome == Completed
      {
        assert changes[..i + 1][..i] == changes[..i];
        var c;
        c, outcome := ApplyChatChange(userChat, changes[i], currentUserId, profileOf);
        called := called + if c.Some? then [c.value] else [];
        i := i + 1;
        if outcome == Aborted {
          ChatChangesStopAtThrow(old(StateOf()), userChat, changes, currentUserId, profileOf, i);
          return;
        }
      }
      assert changes[..i] == changes;
    }

    /** The dispatch on one change's type inside the chat listener. */
    method ApplyChatChange(userChat: Obj, change: DocChange, currentUserId: Value, profileOf: Value -> Value)
      returns (c: Option<Subscription>, outcome: Outcome)
      modifies this
      ensures (StateOf(), c, outcome) == ChatChange(old(StateOf()), userChat, change, currentUserId, profileOf)
    {
      c, outcome := None, Completed;
      if change.kind == "added" {
        if Truthy(Get(change.doc, "isGroup")) {
          HandleAddedGroupChat(userChat, change.doc);
        } else {
          outcome := HandleAddedPrivateChat(userChat, change.doc, currentUserId, profileOf);
        }
      } else if change.kind == "modified" {
        HandleModifiedChat(change.doc);
      } else if change.kind == "removed" {
        c := HandleRemovedChat(change.doc);
      }
    }

    /** `handleAddedGroupChat` */
    method HandleAddedGroupChat(userChat: Obj, chat: Obj)
      modifies this
      ensures userChats == AddedGroupChat(old(userChats), userChat, chat)
      ensures chatsUnsubscribe == old(chatsUnsubscribe)
    {
      userChats := userChats + [GroupChatAggregate(chat, userChat)];
    }

    /** `handleAddedPrivateChat`, with the current user's id and the users store's
        lookup given. */
    method HandleAddedPrivateChat(userChat: Obj, chat: Obj, currentUserId: Value, profileOf: Value -> Value)
      returns (outcome: Outcome)
      modifies this
      ensures (userChats, outcome) == AddedPrivateChat(old(userChats), userChat, chat, currentUserId, profileOf)
      ensures chatsUnsubscribe == old(chatsUnsubscribe)
    {
      var members := Get(chat, "members");
      if !StrictEq(LengthOf(members), Num(2)) {
        return Completed;
      }
      if !members.Arr? {
        return Aborted;
      }
      var other := FirstOtherMember(members.items, currentUserId);
      if other.None? {
        return Aborted;
      }
      var otherUser := profileOf(IdOf(other.value));
      userChats := userChats + [PrivateChatAggregate(chat, otherUser, userChat)];
      return Completed;
    }

    /** `handleModifiedChat` */
    method HandleModifiedChat(chat: Obj)
      modifies this
      ensures userChats == ModifiedChat(old(userChats), chat)
      ensures chatsUnsubscribe == old(chatsUnsubscribe)
    {
      var i := FindIndex(userChats, HasChatId(Get(chat, "id")));
      if i == -1 {
        return;
      }
      userChats := userChats[i := userChats[i].(chat := chat)];
    }

    /** `handleRemovedChat`, as written; the result is the subscription it calls. */
    method HandleRemovedChat(chat: Obj) returns (called: Option<Subscription>)
      modifies this
      ensures (StateOf(), called) == RemovedChat(old(StateOf()), chat)
    {
      var i := FindIndex(userChats, ChatIdIsOwnId());
      if i == -1 {
        return None;
      }
      userChats := userChats[..i] + userChats[i + 1..];
      var id := Get(chat, "id");
      called := if id in chatsUnsubscribe then Some(chatsUnsubscribe[id]) else None;
    }

    /** `handleModifiedUserChat` */
    method HandleModifiedUserChat(userChat: Obj)
      modifies this
      ensures userChats == ModifiedUserChat(old(userChats), userChat)
      ensures chatsUnsubscribe == old(chatsUnsubscribe)
    {
      var i := FindIndex(userChats, HasUserChatId(Get(userChat, "id")));
      if i == -1 {
        return;
      }
      userChats := userChats[i := userChats[i].(userChat := userChat)];
    }

    /** `getChats`: sorts the list in place and returns it. */
    method GetChats() returns (r: seq<ChatAggregate>)
      modifies this
      ensures userChats == SortWith(old(userChats), CompareUpdatedAt) && r == userChats
      ensures chatsUnsubscribe == old(chatsUnsubscribe)
    {
      userChats := SortWith(userChats, CompareUpdatedAt);
      r := userChats;
    }

    /** `createPrivateChat`, with the generated chat id and the time given. */
    method CreatePrivateChat(s: Store, currentUsername: Option<string>, username: string, chatId: ChatId, now: int)
      returns (s': Store, r: Result<ChatId, string>)
      ensures (s', r) == PrivateChatCreated(s, currentUsername, username, chatId, now)
    {
      if !IsDocId(currentUsername) || username == "" {
        return s, Err("invalid document reference");
      }
      var me := currentUsername.value;
      s' := s.(chats := s.chats[chatId := Chat(false, None, None, [me, username], None, None)]);
      s' := s'.(userChats := s'.userChats[(me, chatId) := UserChat(chatId, 0, false, None, Some(DateTime.NowToUtcTimestamp(now)))]);
      r := Ok(chatId);
    }

    /** `createGroupChat`, with the time given. */
    method CreateGroupChat(s: Store, currentUsername: Option<string>, chatId: ChatId, groupName: Option<string>,
                           groupImageUrl: Option<string>, members: seq<UserId>, now: int)
      returns (s': Store, r: Result<ChatId, string>)
      ensures (s', r) == GroupChatCreated(s, currentUsername, chatId, groupName, groupImageUrl, members, now)
    {
      if !IsDocId(currentUsername) || chatId == "" {
        return s, Err("invalid document reference");
      }
      if groupName.None? || groupImageUrl.None? {
        return s, Err("unsupported field value: undefined");
      }
      var me := currentUsername.value;
      s' := s.(chats := s.chats[chatId := Chat(true, groupName, groupImageUrl, members, currentUsername, None)]);
      s' := s'.(userChats := s'.userChats[(me, chatId) := UserChat(chatId, 0, false, None, Some(DateTime.NowToUtcTimestamp(now)))]);
      r := Ok(chatId);
    }

    /** `getChatsCount` */
    function GetChatsCount(): (n: nat)
      reads this
      ensures n == |userChats|
    {
      |userChats|
    }

    /** `getChatByUserChatId(userChatId)` */
    function GetChatByUserChatId(userChatId: Value): (r: Option<ChatAggregate>)
      reads this
      ensures r.None? <==> forall j :: 0 <= j < |userChats| ==> !StrictEq(Get(userChats[j].userChat, "id"), userChatId)
      ensures r.Some? ==> StrictEq(Get(r.value.userChat, "id"), userChatId) && exists i :: 0 <= i < |userChats| && userChats[i] == r.value
    {
      Find(userChats, HasUserChatId(userChatId))
    }

    /** `getChatByChatId(chatId)` */
    function GetChatByChatId(chatId: Value): (r: Option<ChatAggregate>)
      reads this
      ensures r.None? <==> forall j :: 0 <= j < |userChats| ==> !StrictEq(Get(userChats[j].chat, "id"), chatId)
      ensures r.Some? ==> StrictEq(Get(r.value.chat, "id"), chatId) && exists i :: 0 <= i < |userChats| && userChats[i] == r.value
    {
      Find(userChats, HasChatId(chatId))
    }
  }
}
