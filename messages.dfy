/** Message fan-out (cloud_functions/functions/src/messages.ts): when a message document
    is created, touch the sender's userChat, count the message as unread for every other
    member (creating their userChat when it is missing), notify the members, record the
    attachments and the links of the text.
    The URL parser behind `isMediaFile` is a parameter: a partial function from a URL to
    its pathname, `None` where parsing throws. */
module Messages {
  import opened Wrappers
  import opened Js
  import opened Models
  import opened Firestore
  import opened Notifications
  import Avatars

  /** The fields of the created message that the handler reads. A missing
      `attachmentsUrl` is the empty list. */
  datatype MessageData = MessageData(
    systemMessageType: Option<string>,
    fromUser: Option<UserId>,
    text: Option<string>,
    attachmentsUrl: seq<string>)

  /** The URL parser: the pathname of a URL, `None` when `new URL` throws. */
  type UrlParser = string -> Option<string>

  // ---- getChatById ----

  /** `getChatById(chatId)`: the chat document, `None` when it does not exist. */
  function GetChatById(s: Store, chatId: ChatId): (chat: Option<Chat>)
    ensures chat.Some? <==> chatId in s.chats
    ensures chat.Some? ==> chat.value == s.chats[chatId]
  {
    if chatId in s.chats then Some(s.chats[chatId]) else None
  }

  // ---- Unread accounting ----

  /** `chat.members.filter(member => member.id !== sender)`, order kept. */
  function Recipients(members: seq<UserId>, sender: UserId): (r: seq<UserId>)
    ensures forall m :: m in r <==> m in members && m != sender
    ensures |r| <= |members|
  {
    if members == [] then []
    else
      var last := members[|members| - 1];
      Recipients(members[..|members| - 1], sender) + (if last != sender then [last] else [])
  }

  /** The userChat `getOrCreateUserChat` creates for a member who has none. */
  function FreshUserChat(chatId: ChatId, now: int): UserChat {
    UserChat(chatId, 1, false, Some(now), Some(now))
  }

  /** An existing userChat after `unreadCount: increment(1), updatedAt: now`. */
  function Bumped(uc: UserChat, now: int): UserChat {
    uc.(unreadCount := uc.unreadCount + 1, updatedAt := Some(now))
  }

  /** One iteration of the member loop: create the member's userChat, or bump it. */
  function CountFor(ucs: map<(UserId, ChatId), UserChat>, m: UserId, chatId: ChatId, now: int)
    : map<(UserId, ChatId), UserChat>
  {
    var key := (m, chatId);
    ucs[key := if key in ucs then Bumped(ucs[key], now) else FreshUserChat(chatId, now)]
  }

  /** The whole member loop. */
  function CountUnread(ucs: map<(UserId, ChatId), UserChat>, members: seq<UserId>, chatId: ChatId, now: int)
    : map<(UserId, ChatId), UserChat>
  {
    if members == [] then ucs
    else CountFor(CountUnread(ucs, members[..|members| - 1], chatId, now), members[|members| - 1], chatId, now)
  }

  /** `getOrCreateUserChat(member, chatId)`: creates the member's userChat with one unread
      message and returns nothing when it is missing; returns its key, writing nothing,
      when it exists. The query on the `chat` field is the lookup of the document the
      functions write under the chat's id. */
  method GetOrCreateUserChat(s: Store, member: UserId, chatId: ChatId, now: int)
    returns (s': Store, existing: Option<(UserId, ChatId)>)
    ensures existing.Some? <==> (member, chatId) in s.userChats
    ensures existing.Some? ==> existing.value == (member, chatId) && s' == s
    ensures existing.None? ==> s' == s.(userChats := s.userChats[(member, chatId) := FreshUserChat(chatId, now)])
  {
    var key := (member, chatId);
    if key !in s.userChats {
      s' := s.(userChats := s.userChats[key := FreshUserChat(chatId, now)]);
      return s', None;
    }
    return s, Some(key);
  }

  /** The member loop of the handler. */
  method CountUnreadLoop(s: Store, members: seq<UserId>, chatId: ChatId, now: int) returns (s': Store)
    ensures s' == s.(userChats := CountUnread(s.userChats, members, chatId, now))
  {
    s' := s;
    var i := 0;
    while i < |members|
      invariant 0 <= i <= |members|
      invariant s' == s.(userChats := CountUnread(s.userChats, members[..i], chatId, now))
    {
      assert members[..i + 1][..i] == members[..i];
      var existing;
      s', existing := GetOrCreateUserChat(s', members[i], chatId, now);
      if existing.Some? {
        var key := existing.value;
        s' := s'.(userChats := s'.userChats[key := Bumped(s'.userChats[key], now)]);
      }
      i := i + 1;
    }
    assert members[..i] == members;
  }

  /** With distinct members, every member ends with exactly one more unread message, or
      with a fresh userChat holding one; every other userChat is left alone. */
  lemma {:induction false} CountUnreadEffect(
    ucs: map<(UserId, ChatId), UserChat>, members: seq<UserId>, chatId: ChatId, now: int, key: (UserId, ChatId))
    requires Distinct(members)
    ensures var r := CountUnread(ucs, members, chatId, now);
      if key.1 == chatId && key.0 in members then
        key in r && r[key] == if key in ucs then Bumped(ucs[key], now) else FreshUserChat(chatId, now)
      else
        (key in r <==> key in ucs) && (key in ucs ==> r[key] == ucs[key])
  {
    if members != [] {
      var init := members[..|members| - 1];
      var last := members[|members| - 1];
      CountUnreadEffect(ucs, init, chatId, now, key);
      assert members == init + [last];
      if key.0 in init {
        var i :| 0 <= i < |init| && init[i] == key.0;
        assert members[i] == key.0;
      }
    }
  }

  /** The userChats after the handler's first two steps: the sender's `updatedAt`, then
      the member loop. */
  function AfterUnread(s: Store, chatId: ChatId, sender: UserId, members: seq<UserId>, now: int): Store
    requires (sender, chatId) in s.userChats
  {
    var key := (sender, chatId);
    s.(userChats := CountUnread(s.userChats[key := s.userChats[key].(updatedAt := Some(now))], members, chatId, now))
  }

  /** The sender's own userChat only gets a new `updatedAt`; its unread count stays. */
  lemma SenderOnlyTouched(s: Store, chatId: ChatId, sender: UserId, members: seq<UserId>, now: int)
    requires (sender, chatId) in s.userChats
    requires Distinct(members)
    requires sender !in members
    ensures var r := AfterUnread(s, chatId, sender, members, now).userChats;
      (sender, chatId) in r && r[(sender, chatId)] == s.userChats[(sender, chatId)].(updatedAt := Some(now))
  {
    var key := (sender, chatId);
    CountUnreadEffect(s.userChats[key := s.userChats[key].(updatedAt := Some(now))], members, chatId, now, key);
  }

  // ---- Notification text ----

  /** The text of the body: unchanged up to 100 code units, otherwise the longest
      prefix within 97 code units and "...". */
  function Truncate(text: string): (r: string)
    ensures Length(r) <= 100
    ensures Length(text) <= 100 ==> r == text
    ensures Length(text) > 100 ==>
      && |r| >= 3 && r[|r| - 3..] == "..."
      && var k := |r| - 3;
         && k < |text| && r[..k] == text[..k]
         && Length(text[..k]) <= 97 < Length(text[..k + 1])
  {
    if Length(text) > 100 then
      var kept := PrefixWithin(text, 97);
      Utf16Append(kept, "...");
      BmpUtf16("...");
      var r := kept + "...";
      assert r[..|r| - 3] == kept;
      r
    else text
  }

  /** A text without characters above U+FFFF is cut at exactly 97 characters. */
  lemma TruncateBmp(text: string)
    requires forall i :: 0 <= i < |text| ==> text[i] as int < 0x1_0000
    requires |text| > 100
    ensures Truncate(text) == text[..97] + "..."
  {
    BmpUtf16(text);
    var kept := PrefixWithin(text, 97);
    BmpUtf16(kept);
    BmpUtf16(text[..|kept| + 1]);
  }

  /** `text.length` counts a character above U+FFFF twice: an emoji, a space and
      "https://x" make 11 characters but 12 code units, enough for the link guard. */
  lemma LinkGuardCountsCodeUnits()
    ensures |"\U{1F600} https://x"| == 11
    ensures Length("\U{1F600} https://x") == 12
  {
    assert "\U{1F600} https://x" == "\U{1F600}" + " https://x";
    Utf16Append("\U{1F600}", " https://x");
    BmpUtf16(" https://x");
    assert Utf16("\U{1F600}") == [0xD83D, 0xDE00];
  }

  /** `generateDisplayName({firstName, lastName})` of messages.ts, which is the same
      function as in the avatar helpers. */
  function DisplayName(sender: UserDoc): (name: string)
    ensures TruthyStr(sender.lastName) ==> name == sender.firstName + " " + sender.lastName.value
    ensures !TruthyStr(sender.lastName) ==> name == sender.firstName
  {
    Avatars.GenerateDisplayName(Some(Avatars.NameParams(sender.firstName, sender.lastName)))
  }

  /** `generateNotificationBody(chat, sender, text)`: in a group, the sender's display
      name, ": " and the truncated text; in a private chat, the truncated text. */
  function NotificationBody(isGroup: bool, sender: UserDoc, text: string): (body: string)
    ensures !isGroup ==> body == Truncate(text) && Length(body) <= 100
    ensures isGroup ==> body == DisplayName(sender) + ": " + Truncate(text)
  {
    var t := Truncate(text);
    if isGroup then DisplayName(sender) + ": " + t else t
  }

  /** A group body is "first last: text" or "first: text". */
  lemma GroupBodyNamesSender(sender: UserDoc, text: string)
    requires Length(text) <= 100
    ensures NotificationBody(true, sender, text)
      == (if TruthyStr(sender.lastName) then sender.firstName + " " + sender.lastName.value else sender.firstName)
         + ": " + text
  {
  }

  /** `(isGroup ? groupImageUrl : sender.photoUrl) || ''` */
  function Icon(chat: Chat, sender: UserDoc): (icon: string)
    ensures var source := if chat.isGroup then chat.groupImageUrl else sender.photoUrl;
      icon == if TruthyStr(source) then source.value else ""
  {
    var source := if chat.isGroup then chat.groupImageUrl else sender.photoUrl;
    if TruthyStr(source) then source.value else ""
  }

  /** The payload of a new-message notification: the group name or the sender's name as
      title, the body, the chat id and the icon. */
  function MessagePayload(chat: Chat, chatId: ChatId, sender: UserDoc, text: string): Payload {
    Payload(if chat.isGroup then chat.groupName else Some(DisplayName(sender)),
            NotificationBody(chat.isGroup, sender, text), chatId, Icon(chat, sender))
  }

  /** What the local `sendNotification` does: the store afterwards, the multicast sent,
      and whether it threw. It throws when there are tokens, the sender exists and the
      message has no text, since the body reads `text.length`. */
  function NotificationEffect(s: Store, chat: Chat, chatId: ChatId, members: seq<UserId>, sender: UserId,
                              text: Option<string>, now: int, send: Transport): (Store, Option<Multicast>, Outcome)
    requires OneResponsePerToken(send)
  {
    var all := AllTokens(s, members);
    var senderDoc := UserById(s.users, sender);
    if all == [] then (s, None, Completed)
    else if senderDoc.None? then (s, None, Completed)
    else if text.None? then (s, None, Aborted)
    else
      var tokens := TokenIds(all);
      (DeleteTokens(s, ExpiredTokens(s, members, now) + RejectedTokens(all, send(tokens))),
       Some(Multicast(tokens, MessagePayload(chat, chatId, senderDoc.value, text.value))),
       Completed)
  }

  /** `sendNotification(chat, members, fromUserRef, text)` of messages.ts: the same
      token collection, pruning and deletion as the shared one, with the payload built
      from the sender's profile once tokens were found. */
  method SendMessageNotification(s: Store, chat: Chat, chatId: ChatId, members: seq<UserId>, sender: UserId,
                                 text: Option<string>, now: int, send: Transport)
    returns (s': Store, sent: Option<Multicast>, outcome: Outcome)
    requires OneResponsePerToken(send)
    ensures (s', sent, outcome) == NotificationEffect(s, chat, chatId, members, sender, text, now, send)
  {
    var all, failed := CollectTokens(s, members, now);
    if |all| == 0 {
      NoTokensNoEffect(s, members, now, send);
      return s, None, Completed;
    }
    var senderDoc := UserById(s.users, sender);
    if senderDoc.None? {
      return s, None, Completed;
    }
    if text.None? {
      return s, None, Aborted;
    }
    var payload := MessagePayload(chat, chatId, senderDoc.value, text.value);
    var tokens := TokenIds(all);
    sent := Some(Multicast(tokens, payload));
    var responses := send(tokens);
    failed := QueueRejected(all, responses, failed);
    s' := RemoveTokens(s, failed);
    outcome := Completed;
  }

  /** A missing sender profile stops the notification before the send and before any
      token is deleted, the expired ones included. */
  lemma MissingSenderDeletesNothing(s: Store, chat: Chat, chatId: ChatId, members: seq<UserId>, sender: UserId,
                                    text: Option<string>, now: int, send: Transport)
    requires OneResponsePerToken(send)
    requires UserById(s.users, sender).None?
    ensures NotificationEffect(s, chat, chatId, members, sender, text, now, send) == (s, None, Completed)
  {
  }

  // ---- Attachments ----

  /** `mediaExtensions` */
  const MEDIA_EXTENSIONS: set<string> :=
    {"jpg", "jpeg", "png", "gif", "webp", "svg", "mp4", "mov", "avi", "mkv", "webm"}

  /** `pathname.split('.').pop()`: the text after the last '.', or the whole pathname. */
  function LastDotPiece(pathname: string): (piece: string)
    ensures |piece| <= |pathname| && piece == pathname[|pathname| - |piece|..]
    ensures '.' !in piece
    ensures piece == pathname || pathname[|pathname| - |piece| - 1] == '.'
  {
    var i := LastIndexOf(pathname, '.');
    var piece := pathname[i + 1..];
    forall k | 0 <= k < |piece|
      ensures piece[k] != '.'
    {
      assert piece[k] == pathname[i + 1 + k];
    }
    piece
  }

  /** `isMediaFile(url)`: the URL parses and the lower-cased last piece of its pathname
      is a media extension; an unparsable URL is not media. */
  function IsMediaFile(url: string, parse: UrlParser): (media: bool)
    ensures media ==> parse(url).Some?
    ensures parse(url).Some? ==> (media <==> ToLowerCase(LastDotPiece(parse(url).value)) in MEDIA_EXTENSIONS)
  {
    match parse(url)
    case None => false
    case Some(pathname) => ToLowerCase(LastDotPiece(pathname)) in MEDIA_EXTENSIONS
  }

  /** For a pathname `stem.ext` the extension decides, whatever its case. */
  lemma MediaByExtension(url: string, parse: UrlParser, stem: string, ext: string)
    requires parse(url) == Some(stem + "." + ext)
    requires '.' !in ext
    ensures IsMediaFile(url, parse) <==> ToLowerCase(ext) in MEDIA_EXTENSIONS
  {
    var p := stem + "." + ext;
    var r := LastIndexOf(p, '.');
    assert p[|stem|] == '.';
    forall k | |stem| < k < |p|
      ensures p[k] != '.'
    {
      assert p[k] == ext[k - |stem| - 1];
    }
    assert r == |stem|;
    assert p[|stem| + 1..] == ext;
  }

  /** The records `saveAttachmentFiles` adds, one per URL, in order. */
  function FileRecords(messageId: string, urls: seq<string>, parse: UrlParser, now: int): (r: seq<FileRecord>)
    ensures |r| == |urls|
    ensures forall i :: 0 <= i < |urls| ==> r[i] == FileRecord(messageId, urls[i], IsMediaFile(urls[i], parse), now)
  {
    if urls == [] then []
    else
      var last := urls[|urls| - 1];
      FileRecords(messageId, urls[..|urls| - 1], parse, now) + [FileRecord(messageId, last, IsMediaFile(last, parse), now)]
  }

  /** The store after the attachment records of a message are added to the chat. */
  function SaveFiles(s: Store, chatId: ChatId, messageId: string, urls: seq<string>, parse: UrlParser, now: int)
    : (s': Store)
    ensures FilesOf(s', chatId) == FilesOf(s, chatId) + FileRecords(messageId, urls, parse, now)
    ensures forall c :: c != chatId ==> FilesOf(s', c) == FilesOf(s, c)
    ensures s' == s.(files := s'.files)
  {
    s.(files := s.files[chatId := FilesOf(s, chatId) + FileRecords(messageId, urls, parse, now)])
  }

  /** `saveAttachmentFiles(chatId, messageId, urls)` */
  method SaveAttachmentFiles(s: Store, chatId: ChatId, messageId: string, urls: seq<string>, parse: UrlParser, now: int)
    returns (s': Store)
    ensures s' == SaveFiles(s, chatId, messageId, urls, parse, now)
  {
    var list := FilesOf(s, chatId);
    s' := s.(files := s.files[chatId := list]);
    var i := 0;
    while i < |urls|
      invariant 0 <= i <= |urls|
      invariant list == FilesOf(s, chatId) + FileRecords(messageId, urls[..i], parse, now)
      invariant s' == s.(files := s.files[chatId := list])
    {
      var record := FileRecord(messageId, urls[i], IsMediaFile(urls[i], parse), now);
      assert urls[..i + 1][..i] == urls[..i];
      list := list + [record];
      s' := s.(files := s.files[chatId := list]);
      i := i + 1;
    }
    assert urls[..i] == urls;
  }

  // ---- Links ----

  /** What the link pattern matches: "https://" and at least one more character, none
      of them whitespace. */
  predicate IsUrl(u: string) {
    |u| > 8 && u[..8] == "https://" && forall k :: 0 <= k < |u| ==> !IsWhitespace(u[k])
  }

  /** `"https://"` at position p of t. */
  predicate HttpsAt(t: string, p: nat) {
    p + 8 <= |t| && t[p..p + 8] == "https://"
  }

  /** A match of `/https:\/\/\S+/` can start at q: "https://" followed by a character
      that is not whitespace. */
  predicate MatchStart(t: string, q: nat) {
    HttpsAt(t, q) && q + 8 < |t| && !IsWhitespace(t[q + 8])
  }

  /** End of the run of non-whitespace characters starting at q. */
  function RunEnd(t: string, q: nat): (e: nat)
    requires q <= |t|
    ensures q <= e <= |t|
    ensures forall k :: q <= k < e ==> !IsWhitespace(t[k])
    ensures e < |t| ==> IsWhitespace(t[e])
    decreases |t| - q
  {
    if q == |t| || IsWhitespace(t[q]) then q else RunEnd(t, q + 1)
  }

  /** The matches of `/https:\/\/\S+/g` from position p on, left to right. */
  function UrlsFrom(t: string, p: nat): (urls: seq<string>)
    requires p <= |t|
    ensures forall u :: u in urls ==> IsUrl(u)
    decreases |t| - p
  {
    if p == |t| then []
    else if MatchStart(t, p) then
      var e := RunEnd(t, p + 8);
      var u := t[p..e];
      assert u[..8] == t[p..p + 8];
      assert forall k :: 0 <= k < |u| ==> u[k] == t[p + k];
      [u] + UrlsFrom(t, e)
    else UrlsFrom(t, p + 1)
  }

  /** `extractUrls(text)`: `text.match(/https:\/\/\S+/g) || []`. Every URL starts with
      "https://", has at least one more character and holds no whitespace. */
  function ExtractUrls(text: string): (urls: seq<string>)
    ensures forall u :: u in urls ==> IsUrl(u)
  {
    UrlsFrom(text, 0)
  }

  /** The scan finds the leftmost match at or after p, takes it greedily up to the next
      whitespace, and resumes where it ends, so matches never overlap. */
  lemma {:induction false} NextMatch(t: string, p: nat, q: nat)
    requires p <= q && MatchStart(t, q)
    requires forall r :: p <= r < q ==> !MatchStart(t, r)
    ensures UrlsFrom(t, p) == [t[q..RunEnd(t, q + 8)]] + UrlsFrom(t, RunEnd(t, q + 8))
    decreases q - p
  {
    if p < q {
      NextMatch(t, p + 1, q);
    }
  }

  /** No URL is found from p on exactly when no match starts there. */
  lemma {:induction false} NoUrlsIffNoMatch(t: string, p: nat)
    requires p <= |t|
    ensures UrlsFrom(t, p) == [] <==> forall r :: p <= r < |t| ==> !MatchStart(t, r)
    decreases |t| - p
  {
    if p < |t| {
      NoUrlsIffNoMatch(t, p + 1);
    }
  }

  /** Whitespace ends every match, so the URLs of two texts joined by a whitespace
      character are the first text's followed by the second's. */
  lemma JoinedByWhitespace(a: string, w: char, b: string)
    requires IsWhitespace(w)
    ensures ExtractUrls(a + [w] + b) == ExtractUrls(a) + ExtractUrls(b)
  {
    UrlsBeforeWhitespace(a, w, b, 0);
    assert a + [w] + b == (a + [w]) + b;
    UrlsAfterPrefix(a + [w], b, 0);
  }

  lemma {:induction false} UrlsBeforeWhitespace(a: string, w: char, b: string, p: nat)
    requires IsWhitespace(w) && p <= |a|
    ensures UrlsFrom(a + [w] + b, p) == UrlsFrom(a, p) + UrlsFrom(a + [w] + b, |a| + 1)
    decreases |a| - p
  {
    var t := a + [w] + b;
    MatchStartBeforeWhitespace(a, w, b, p);
    if p == |a| {
      assert UrlsFrom(t, p) == UrlsFrom(t, p + 1);
    } else if MatchStart(a, p) {
      var e := RunEnd(a, p + 8);
      RunEndBeforeWhitespace(a, w, b, p + 8);
      assert t[p..e] == a[p..e];
      UrlsBeforeWhitespace(a, w, b, e);
    } else {
      UrlsBeforeWhitespace(a, w, b, p + 1);
    }
  }

  lemma MatchStartBeforeWhitespace(a: string, w: char, b: string, p: nat)
    requires IsWhitespace(w) && p <= |a|
    ensures MatchStart(a + [w] + b, p) == MatchStart(a, p)
  {
    var t := a + [w] + b;
    if p + 8 < |a| {
      assert t[p..p + 8] == a[p..p + 8];
      assert t[p + 8] == a[p + 8];
    } else if p + 8 == |a| {
      assert t[p + 8] == w;
    } else if p + 8 <= |t| {
      assert t[p..p + 8][|a| - p] == w;
      assert forall i :: 0 <= i < 8 ==> !IsWhitespace("https://"[i]);
    }
  }

  lemma {:induction false} RunEndBeforeWhitespace(a: string, w: char, b: string, q: nat)
    requires IsWhitespace(w) && q <= |a|
    ensures RunEnd(a + [w] + b, q) == RunEnd(a, q)
    decreases |a| - q
  {
    if q < |a| {
      assert (a + [w] + b)[q] == a[q];
      RunEndBeforeWhitespace(a, w, b, q + 1);
    } else {
      assert (a + [w] + b)[q] == w;
    }
  }

  lemma {:induction false} UrlsAfterPrefix(c: string, b: string, p: nat)
    requires p <= |b|
    ensures UrlsFrom(c + b, |c| + p) == UrlsFrom(b, p)
    decreases |b| - p
  {
    var t := c + b;
    if p < |b| {
      MatchStartAfterPrefix(c, b, p);
      if MatchStart(b, p) {
        var e := RunEnd(b, p + 8);
        RunEndAfterPrefix(c, b, p + 8);
        assert t[|c| + p..|c| + e] == b[p..e];
        UrlsAfterPrefix(c, b, e);
      } else {
        UrlsAfterPrefix(c, b, p + 1);
      }
    }
  }

  lemma MatchStartAfterPrefix(c: string, b: string, p: nat)
    requires p <= |b|
    ensures MatchStart(c + b, |c| + p) == MatchStart(b, p)
  {
    if p + 8 < |b| {
      assert (c + b)[|c| + p..|c| + p + 8] == b[p..p + 8];
      assert (c + b)[|c| + p + 8] == b[p + 8];
    }
  }

  lemma {:induction false} RunEndAfterPrefix(c: string, b: string, q: nat)
    requires q <= |b|
    ensures RunEnd(c + b, |c| + q) == |c| + RunEnd(b, q)
    decreases |b| - q
  {
    if q < |b| {
      assert (c + b)[|c| + q] == b[q];
      RunEndAfterPrefix(c, b, q + 1);
    }
  }

  /** Text without "https://" has no links. */
  lemma {:induction false} NoSchemeNoUrls(t: string, p: nat)
    requires p <= |t|
    requires forall q :: p <= q <= |t| ==> !HttpsAt(t, q)
    ensures UrlsFrom(t, p) == []
    decreases |t| - p
  {
    if p < |t| {
      NoSchemeNoUrls(t, p + 1);
    }
  }

  /** A URL with nothing around it is extracted whole: the match is greedy. */
  lemma WholeUrl(rest: string)
    requires rest != [] && forall k :: 0 <= k < |rest| ==> !IsWhitespace(rest[k])
    ensures ExtractUrls("https://" + rest) == ["https://" + rest]
  {
    var t := "https://" + rest;
    assert t[..8] == "https://";
    assert HttpsAt(t, 0);
    assert t[8] == rest[0];
    RunEndAll(t, 8);
    assert t[0..|t|] == t;
    assert UrlsFrom(t, |t|) == [];
  }

  lemma {:induction false} RunEndAll(t: string, q: nat)
    requires q <= |t|
    requires forall k :: q <= k < |t| ==> !IsWhitespace(t[k])
    ensures RunEnd(t, q) == |t|
    decreases |t| - q
  {
    if q < |t| {
      RunEndAll(t, q + 1);
    }
  }

  /** The records `saveMessageLinks` adds, one per extracted URL, in order. */
  function LinkRecords(messageId: string, urls: seq<string>, now: int): (r: seq<LinkRecord>)
    ensures |r| == |urls|
    ensures forall i :: 0 <= i < |urls| ==> r[i] == LinkRecord(messageId, urls[i], now)
  {
    if urls == [] then []
    else LinkRecords(messageId, urls[..|urls| - 1], now) + [LinkRecord(messageId, urls[|urls| - 1], now)]
  }

  /** The store after the link records of a text are added to the chat. */
  function SaveLinks(s: Store, chatId: ChatId, messageId: string, text: string, now: int): (s': Store)
    ensures LinksOf(s', chatId) == LinksOf(s, chatId) + LinkRecords(messageId, ExtractUrls(text), now)
    ensures forall c :: c != chatId ==> LinksOf(s', c) == LinksOf(s, c)
    ensures s' == s.(links := s'.links)
  {
    s.(links := s.links[chatId := LinksOf(s, chatId) + LinkRecords(messageId, ExtractUrls(text), now)])
  }

  /** `saveMessageLinks(chatId, messageId, text)` */
  method SaveMessageLinks(s: Store, chatId: ChatId, messageId: string, text: string, now: int) returns (s': Store)
    ensures s' == SaveLinks(s, chatId, messageId, text, now)
  {
    var urls := ExtractUrls(text);
    var list := LinksOf(s, chatId);
    s' := s.(links := s.links[chatId := list]);
    var i := 0;
    while i < |urls|
      invariant 0 <= i <= |urls|
      invariant list == LinksOf(s, chatId) + LinkRecords(messageId, urls[..i], now)
      invariant s' == s.(links := s.links[chatId := list])
    {
      var record := LinkRecord(messageId, urls[i], now);
      assert urls[..i + 1][..i] == urls[..i];
      list := list + [record];
      s' := s.(links := s.links[chatId := list]);
      i := i + 1;
    }
    assert urls[..i] == urls;
  }

  // ---- The trigger ----

  /** The handler returns before its first write: no snapshot, a system message, no
      sender, or no chat. */
  predicate Skips(s: Store, chatId: ChatId, snapshot: Option<MessageData>) {
    || snapshot.None?
    || TruthyStr(snapshot.value.systemMessageType)
    || !TruthyStr(snapshot.value.fromUser)
    || chatId !in s.chats
  }

  /** The attachment and link records, when the handler gets that far. */
  function SaveRecords(s: Store, chatId: ChatId, messageId: string, d: MessageData, parse: UrlParser, now: int)
    : (s': Store)
    ensures s' == s.(files := s'.files, links := s'.links)
  {
    var withFiles := if |d.attachmentsUrl| > 0 then SaveFiles(s, chatId, messageId, d.attachmentsUrl, parse, now) else s;
    if TruthyStr(d.text) && Length(d.text.value) >= 12 then SaveLinks(withFiles, chatId, messageId, d.text.value, now)
    else withFiles
  }

  /** The whole effect of `onMessageCreated` on `chats/{chatId}/messages/{messageId}`. */
  function MessageCreatedEffect(s: Store, chatId: ChatId, messageId: string, snapshot: Option<MessageData>,
                                now: int, send: Transport, parse: UrlParser): (Store, Option<Multicast>, Outcome)
    requires OneResponsePerToken(send)
  {
    if Skips(s, chatId, snapshot) then (s, None, Completed)
    else
      var d := snapshot.value;
      var sender := d.fromUser.value;
      if (sender, chatId) !in s.userChats then (s, None, Aborted)
      else
        var chat := s.chats[chatId];
        var members := Recipients(chat.members, sender);
        var counted := AfterUnread(s, chatId, sender, members, now);
        var (notified, sent, outcome) := NotificationEffect(counted, chat, chatId, members, sender, d.text, now, send);
        if outcome.Aborted? then (notified, sent, outcome)
        else (SaveRecords(notified, chatId, messageId, d, parse, now), sent, Completed)
  }

  /** `onMessageCreated`. `sent` is the multicast handed to the transport; `outcome`
      says whether the handler threw (the sender's userChat is missing, or the message
      has no text while there are tokens to notify). */
  method OnMessageCreated(s: Store, chatId: ChatId, messageId: string, snapshot: Option<MessageData>,
                          now: int, send: Transport, parse: UrlParser)
    returns (s': Store, sent: Option<Multicast>, outcome: Outcome)
    requires OneResponsePerToken(send)
    ensures (s', sent, outcome) == MessageCreatedEffect(s, chatId, messageId, snapshot, now, send, parse)
  {
    if snapshot.None? {
      return s, None, Completed;
    }
    var d := snapshot.value;
    if TruthyStr(d.systemMessageType) {
      return s, None, Completed;
    }
    if !TruthyStr(d.fromUser) {
      return s, None, Completed;
    }
    var sender := d.fromUser.value;
    var chat := GetChatById(s, chatId);
    if chat.None? {
      return s, None, Completed;
    }
    var key := (sender, chatId);
    if key !in s.userChats {
      return s, None, Aborted;
    }
    s' := s.(userChats := s.userChats[key := s.userChats[key].(updatedAt := Some(now))]);
    var members := Recipients(chat.value.members, sender);
    s' := CountUnreadLoop(s', members, chatId, now);
    s', sent, outcome := SendMessageNotification(s', chat.value, chatId, members, sender, d.text, now, send);
    if outcome.Aborted? {
      return;
    }
    if |d.attachmentsUrl| > 0 {
      s' := SaveAttachmentFiles(s', chatId, messageId, d.attachmentsUrl, parse, now);
    }
    if TruthyStr(d.text) && Length(d.text.value) >= 12 {
      s' := SaveMessageLinks(s', chatId, messageId, d.text.value, now);
    }
  }

  // ---- Properties of the trigger ----

  /** A system message, or a message whose chat is missing, causes no write at all. */
  lemma SkippedMessagesWriteNothing(s: Store, chatId: ChatId, messageId: string, d: MessageData,
                                    now: int, send: Transport, parse: UrlParser)
    requires OneResponsePerToken(send)
    requires TruthyStr(d.systemMessageType) || chatId !in s.chats
    ensures MessageCreatedEffect(s, chatId, messageId, Some(d), now, send, parse) == (s, None, Completed)
  {
  }

  /** The chats, the profiles, the system messages and the client-side documents are
      never written by the handler. */
  lemma MessageCreatedFrame(s: Store, chatId: ChatId, messageId: string, snapshot: Option<MessageData>,
                            now: int, send: Transport, parse: UrlParser)
    requires OneResponsePerToken(send)
    ensures var s' := MessageCreatedEffect(s, chatId, messageId, snapshot, now, send, parse).0;
      && s'.chats == s.chats && s'.users == s.users && s'.systemMessages == s.systemMessages
      && s'.messages == s.messages && s'.pinned == s.pinned
      && s'.refreshTimes == s.refreshTimes && s'.claims == s.claims
  {
    if !Skips(s, chatId, snapshot) && (snapshot.value.fromUser.value, chatId) in s.userChats {
      FanOutOnly(s, chatId, messageId, snapshot.value, now, send, parse);
    }
  }

  /** The handler, once past its early returns, writes only userChats, tokens, files
      and links. */
  lemma FanOutOnly(s: Store, chatId: ChatId, messageId: string, d: MessageData,
                   now: int, send: Transport, parse: UrlParser)
    requires OneResponsePerToken(send)
    requires !Skips(s, chatId, Some(d)) && (d.fromUser.value, chatId) in s.userChats
    ensures var r := MessageCreatedEffect(s, chatId, messageId, Some(d), now, send, parse).0;
      r == s.(userChats := r.userChats, tokens := r.tokens, files := r.files, links := r.links)
  {
    var sender := d.fromUser.value;
    var chat := s.chats[chatId];
    var members := Recipients(chat.members, sender);
    var counted := AfterUnread(s, chatId, sender, members, now);
    NotificationFrame(counted, chat, chatId, members, sender, d.text, now, send);
  }

  /** The notification only deletes tokens. */
  lemma NotificationFrame(s: Store, chat: Chat, chatId: ChatId, members: seq<UserId>, sender: UserId,
                          text: Option<string>, now: int, send: Transport)
    requires OneResponsePerToken(send)
    ensures var s' := NotificationEffect(s, chat, chatId, members, sender, text, now, send).0;
      s' == s.(tokens := s'.tokens)
  {
    var all := AllTokens(s, members);
    if all != [] && UserById(s.users, sender).Some? && text.Some? {
      DeleteTokensFrame(s, ExpiredTokens(s, members, now) + RejectedTokens(all, send(TokenIds(all))));
    }
  }

  /** With distinct chat members, each member other than the sender ends with one more
      unread message, or a fresh userChat holding one; the sender's userChat keeps its
      count and gets the new `updatedAt`; no other userChat changes. */
  lemma UnreadAccounting(s: Store, chatId: ChatId, messageId: string, d: MessageData,
                         now: int, send: Transport, parse: UrlParser, key: (UserId, ChatId))
    requires OneResponsePerToken(send)
    requires !Skips(s, chatId, Some(d)) && (d.fromUser.value, chatId) in s.userChats
    requires Distinct(s.chats[chatId].members)
    ensures var r := MessageCreatedEffect(s, chatId, messageId, Some(d), now, send, parse).0.userChats;
      var sender := d.fromUser.value;
      if key == (sender, chatId) then
        key in r && r[key] == s.userChats[key].(updatedAt := Some(now))
      else if key.1 == chatId && key.0 in s.chats[chatId].members then
        key in r && r[key] == if key in s.userChats then Bumped(s.userChats[key], now) else FreshUserChat(chatId, now)
      else
        (key in r <==> key in s.userChats) && (key in s.userChats ==> r[key] == s.userChats[key])
  {
    var sender := d.fromUser.value;
    var chat := s.chats[chatId];
    var members := Recipients(chat.members, sender);
    RecipientsDistinct(chat.members, sender);
    var start := s.userChats[(sender, chatId) := s.userChats[(sender, chatId)].(updatedAt := Some(now))];
    CountUnreadEffect(start, members, chatId, now, key);
    UserChatsAfterMessage(s, chatId, messageId, d, now, send, parse);
  }

  /** After the unread accounting, the handler writes no userChat. */
  lemma UserChatsAfterMessage(s: Store, chatId: ChatId, messageId: string, d: MessageData,
                              now: int, send: Transport, parse: UrlParser)
    requires OneResponsePerToken(send)
    requires !Skips(s, chatId, Some(d)) && (d.fromUser.value, chatId) in s.userChats
    ensures var sender := d.fromUser.value;
      MessageCreatedEffect(s, chatId, messageId, Some(d), now, send, parse).0.userChats
      == AfterUnread(s, chatId, sender, Recipients(s.chats[chatId].members, sender), now).userChats
  {
    var sender := d.fromUser.value;
    var chat := s.chats[chatId];
    var members := Recipients(chat.members, sender);
    var counted := AfterUnread(s, chatId, sender, members, now);
    var effect := NotificationEffect(counted, chat, chatId, members, sender, d.text, now, send);
    NotificationFrame(counted, chat, chatId, members, sender, d.text, now, send);
    assert effect.0.userChats == counted.userChats;
  }

  lemma {:induction false} RecipientsDistinct(members: seq<UserId>, sender: UserId)
    requires Distinct(members)
    ensures Distinct(Recipients(members, sender))
  {
    if members != [] {
      var init := members[..|members| - 1];
      var last := members[|members| - 1];
      RecipientsDistinct(init, sender);
      forall i | 0 <= i < |init|
        ensures init[i] != last
      {
        assert init[i] == members[i];
      }
      assert last !in Recipients(init, sender);
    }
  }
}
