/** Push notifications to chat members (cloud_functions/functions/src/notifications.ts):
    collect every recipient's push tokens, queue the expired ones, send one multicast,
    queue the tokens the transport rejects as unregistered or invalid, then delete every
    queued token. The transport is a parameter: it answers a list of tokens with one
    response per token, in order. */
module Notifications {
  import opened Wrappers
  import opened Models
  import opened Firestore

  /** `EXPIRATION_TIME`: thirty days in milliseconds. */
  const EXPIRATION_TIME: int := 1000 * 60 * 60 * 24 * 30
  const UNREGISTERED_ERROR_CODE: string := "messaging/registration-token-not-registered"
  const INVALID_ARGUMENT_ERROR_CODE: string := "messaging/invalid-argument"

  /** `{userId, token}`: a token together with the user whose collection holds it. */
  datatype UserToken = UserToken(userId: UserId, token: string)

  /** One entry of the multicast response: `errorCode` is the `code` of the response's
      error, missing when there is no error or the error carries no code. */
  datatype SendResponse = SendResponse(success: bool, errorCode: Option<string>)

  /** The notification payload: `notification.{title, body}` and `data.{chatId, icon}`. */
  datatype Payload = Payload(title: Option<string>, body: string, chatId: ChatId, icon: string)

  /** What is handed to the transport: the token list and the payload. */
  datatype Multicast = Multicast(tokens: seq<string>, payload: Payload)

  /** The push transport (`sendEachForMulticast`), from tokens to per-token responses. */
  type Transport = seq<string> -> seq<SendResponse>

  ghost predicate OneResponsePerToken(send: Transport) {
    forall tokens :: |send(tokens)| == |tokens|
  }

  /** `data.createdAt < Date.now() - EXPIRATION_TIME`; a token without `createdAt` is
      never expired (the comparison with `undefined` is false). */
  predicate IsExpired(t: PushToken, now: int) {
    t.createdAt.Some? && t.createdAt.value < now - EXPIRATION_TIME
  }

  /** A failed response whose code says the token is unregistered or invalid. */
  predicate IsRejected(r: SendResponse) {
    && !r.success
    && r.errorCode.Some?
    && (r.errorCode.value == UNREGISTERED_ERROR_CODE || r.errorCode.value == INVALID_ARGUMENT_ERROR_CODE)
  }

  // ---- Specification of the three phases ----

  /** The tokens of one recipient, in collection order. */
  function UserTokens(userId: UserId, tokens: seq<PushToken>): (r: seq<UserToken>)
    ensures |r| == |tokens|
    ensures forall i :: 0 <= i < |r| ==> r[i] == UserToken(userId, tokens[i].id)
  {
    if tokens == [] then []
    else UserTokens(userId, tokens[..|tokens| - 1]) + [UserToken(userId, tokens[|tokens| - 1].id)]
  }

  /** `allTokens`: every recipient's tokens, recipient by recipient. */
  function AllTokens(s: Store, recipients: seq<UserId>): seq<UserToken> {
    if recipients == [] then []
    else
      var r := recipients[|recipients| - 1];
      AllTokens(s, recipients[..|recipients| - 1]) + UserTokens(r, TokensOf(s, r))
  }

  /** The expired tokens of one recipient, in collection order. */
  function ExpiredOf(userId: UserId, tokens: seq<PushToken>, now: int): seq<UserToken> {
    if tokens == [] then []
    else
      var t := tokens[|tokens| - 1];
      ExpiredOf(userId, tokens[..|tokens| - 1], now) + (if IsExpired(t, now) then [UserToken(userId, t.id)] else [])
  }

  /** The tokens queued while collecting: the expired ones, recipient by recipient. */
  function ExpiredTokens(s: Store, recipients: seq<UserId>, now: int): seq<UserToken> {
    if recipients == [] then []
    else
      var r := recipients[|recipients| - 1];
      ExpiredTokens(s, recipients[..|recipients| - 1], now) + ExpiredOf(r, TokensOf(s, r), now)
  }

  /** The tokens queued from the responses: `allTokens[idx]` for every rejected response. */
  function RejectedTokens(all: seq<UserToken>, responses: seq<SendResponse>): seq<UserToken>
    requires |responses| == |all|
  {
    if all == [] then []
    else
      var n := |all| - 1;
      RejectedTokens(all[..n], responses[..n]) + (if IsRejected(responses[n]) then [all[n]] else [])
  }

  /** `allTokens.map(({token}) => token)` */
  function TokenIds(all: seq<UserToken>): (r: seq<string>)
    ensures |r| == |all|
    ensures forall i :: 0 <= i < |all| ==> r[i] == all[i].token
  {
    seq(|all|, i requires 0 <= i < |all| => all[i].token)
  }

  /** A collection without the documents of a given id. */
  function WithoutToken(tokens: seq<PushToken>, id: string): (r: seq<PushToken>)
    ensures forall t :: t in r <==> t in tokens && t.id != id
  {
    if tokens == [] then []
    else (if tokens[0].id == id then [] else [tokens[0]]) + WithoutToken(tokens[1..], id)
  }

  /** `users/{userId}/tokens/{token}.delete()` */
  function DeleteToken(s: Store, t: UserToken): (s': Store)
    ensures s' == s.(tokens := s'.tokens)
    ensures forall u :: TokensOf(s', u) == if u == t.userId then WithoutToken(TokensOf(s, u), t.token) else TokensOf(s, u)
  {
    if t.userId in s.tokens then s.(tokens := s.tokens[t.userId := WithoutToken(s.tokens[t.userId], t.token)]) else s
  }

  /** The deletion loop over `failedTokens`. */
  function DeleteTokens(s: Store, failed: seq<UserToken>): Store {
    if failed == [] then s else DeleteToken(DeleteTokens(s, failed[..|failed| - 1]), failed[|failed| - 1])
  }

  // ---- The three phases ----

  /** The collection loop: `allTokens` and the expired tokens queued in `failedTokens`. */
  method CollectTokens(s: Store, recipients: seq<UserId>, now: int) returns (all: seq<UserToken>, failed: seq<UserToken>)
    ensures all == AllTokens(s, recipients)
    ensures failed == ExpiredTokens(s, recipients, now)
  {
    all, failed := [], [];
    var i := 0;
    while i < |recipients|
      invariant 0 <= i <= |recipients|
      invariant all == AllTokens(s, recipients[..i])
      invariant failed == ExpiredTokens(s, recipients[..i], now)
    {
      var r := recipients[i];
      var mine, expired := CollectUserTokens(r, TokensOf(s, r), now);
      all, failed := all + mine, failed + expired;
      assert recipients[..i + 1][..i] == recipients[..i];
      i := i + 1;
    }
    assert recipients[..i] == recipients;
  }

  /** The inner loop over one recipient's token documents. */
  method CollectUserTokens(r: UserId, tokens: seq<PushToken>, now: int) returns (mine: seq<UserToken>, expired: seq<UserToken>)
    ensures mine == UserTokens(r, tokens)
    ensures expired == ExpiredOf(r, tokens, now)
  {
    mine, expired := [], [];
    var j := 0;
    while j < |tokens|
      invariant 0 <= j <= |tokens|
      invariant mine == UserTokens(r, tokens[..j])
      invariant expired == ExpiredOf(r, tokens[..j], now)
    {
      assert tokens[..j + 1][..j] == tokens[..j];
      if IsExpired(tokens[j], now) {
        expired := expired + [UserToken(r, tokens[j].id)];
      }
      mine := mine + [UserToken(r, tokens[j].id)];
      j := j + 1;
    }
    assert tokens[..j] == tokens;
  }

  /** The response loop: appends `allTokens[idx]` for every rejected response. */
  method QueueRejected(all: seq<UserToken>, responses: seq<SendResponse>, failed: seq<UserToken>)
    returns (queued: seq<UserToken>)
    requires |responses| == |all|
    ensures queued == failed + RejectedTokens(all, responses)
  {
    queued := failed;
    var idx := 0;
    while idx < |responses|
      invariant 0 <= idx <= |responses|
      invariant queued == failed + RejectedTokens(all[..idx], responses[..idx])
    {
      assert all[..idx + 1][..idx] == all[..idx];
      assert responses[..idx + 1][..idx] == responses[..idx];
      if IsRejected(responses[idx]) {
        queued := queued + [all[idx]];
      }
      idx := idx + 1;
    }
    assert all[..idx] == all && responses[..idx] == responses;
  }

  /** The deletion loop. */
  method RemoveTokens(s: Store, failed: seq<UserToken>) returns (s': Store)
    ensures s' == DeleteTokens(s, failed)
  {
    s' := s;
    var i := 0;
    while i < |failed|
      invariant 0 <= i <= |failed|
      invariant s' == DeleteTokens(s, failed[..i])
    {
      assert failed[..i + 1][..i] == failed[..i];
      s' := DeleteToken(s', failed[i]);
      i := i + 1;
    }
    assert failed[..i] == failed;
  }

  /** `sendNotification(chatId, recipients, sender, payload)`: `sent` is the multicast
      handed to the transport, if any. With no tokens nothing is sent or deleted; with a
      missing sender profile nothing is sent or deleted either; otherwise the payload
      goes unchanged to every token, and the expired and the rejected tokens are
      deleted. Only the token collections change. */
  method SendNotification(s: Store, recipients: seq<UserId>, sender: UserId, payload: Payload, now: int, send: Transport)
    returns (s': Store, sent: Option<Multicast>)
    requires OneResponsePerToken(send)
    ensures var all := AllTokens(s, recipients);
      sent == if all != [] && UserById(s.users, sender).Some? then Some(Multicast(TokenIds(all), payload)) else None
    ensures var all := AllTokens(s, recipients);
      s' == if all != [] && UserById(s.users, sender).None? then s
            else DeleteTokens(s, ExpiredTokens(s, recipients, now)
                                 + if sent.Some? then RejectedTokens(all, send(TokenIds(all))) else [])
  {
    var all, failed := CollectTokens(s, recipients, now);
    sent := None;
    if |all| > 0 {
      var senderDoc := UserById(s.users, sender);
      if senderDoc.None? {
        return s, None;
      }
      var tokens := TokenIds(all);
      sent := Some(Multicast(tokens, payload));
      var responses := send(tokens);
      failed := QueueRejected(all, responses, failed);
    } else {
      assert failed + [] == failed;
    }
    s' := RemoveTokens(s, failed);
  }

  // ---- Properties ----

  /** Every collected token is a document of a recipient's token collection. */
  lemma {:induction false} CollectedTokensExist(s: Store, recipients: seq<UserId>)
    ensures forall ut :: ut in AllTokens(s, recipients) ==>
      ut.userId in recipients && exists t :: t in TokensOf(s, ut.userId) && t.id == ut.token
  {
    if recipients != [] {
      var init := recipients[..|recipients| - 1];
      var r := recipients[|recipients| - 1];
      CollectedTokensExist(s, init);
      forall ut | ut in AllTokens(s, recipients)
        ensures ut.userId in recipients && exists t :: t in TokensOf(s, ut.userId) && t.id == ut.token
      {
        if ut in AllTokens(s, init) {
          assert ut.userId in init;
        } else {
          var us := UserTokens(r, TokensOf(s, r));
          var i :| 0 <= i < |us| && us[i] == ut;
          assert TokensOf(s, r)[i] in TokensOf(s, ut.userId);
        }
      }
    }
  }

  /** Expired tokens are queued for deletion and still sent to: every expired token is
      also in the multicast list. */
  lemma {:induction false} ExpiredAreCollected(s: Store, recipients: seq<UserId>, now: int)
    ensures forall ut :: ut in ExpiredTokens(s, recipients, now) ==> ut in AllTokens(s, recipients)
  {
    if recipients != [] {
      var init := recipients[..|recipients| - 1];
      var r := recipients[|recipients| - 1];
      ExpiredAreCollected(s, init, now);
      ExpiredOfAreTokens(r, TokensOf(s, r), now);
    }
  }

  lemma {:induction false} ExpiredOfAreTokens(userId: UserId, tokens: seq<PushToken>, now: int)
    ensures forall ut :: ut in ExpiredOf(userId, tokens, now) ==> ut in UserTokens(userId, tokens)
  {
    if tokens != [] {
      var init := tokens[..|tokens| - 1];
      ExpiredOfAreTokens(userId, init, now);
      assert UserTokens(userId, tokens) == UserTokens(userId, init) + [UserToken(userId, tokens[|tokens| - 1].id)];
    }
  }

  /** A token of a recipient is queued while collecting exactly when it is expired. */
  lemma {:induction false} ExpiredOfIff(userId: UserId, tokens: seq<PushToken>, now: int, t: PushToken)
    requires forall i, j :: 0 <= i < j < |tokens| ==> tokens[i].id != tokens[j].id
    requires t in tokens
    ensures UserToken(userId, t.id) in ExpiredOf(userId, tokens, now) <==> IsExpired(t, now)
  {
    var init := tokens[..|tokens| - 1];
    var last := tokens[|tokens| - 1];
    if t == last {
      ExpiredOfIds(userId, init, now);
      assert forall u :: u in init ==> u.id != t.id;
    } else {
      ExpiredOfIff(userId, init, now, t);
    }
  }

  lemma {:induction false} ExpiredOfIds(userId: UserId, tokens: seq<PushToken>, now: int)
    ensures forall ut :: ut in ExpiredOf(userId, tokens, now) ==>
      ut.userId == userId && exists t :: t in tokens && t.id == ut.token
  {
    if tokens != [] {
      var init := tokens[..|tokens| - 1];
      ExpiredOfIds(userId, init, now);
    }
  }

  /** A token is queued from the responses exactly when its response rejects it. */
  lemma {:induction false} RejectedIff(all: seq<UserToken>, responses: seq<SendResponse>, ut: UserToken)
    requires |responses| == |all|
    ensures ut in RejectedTokens(all, responses) <==>
      exists i :: 0 <= i < |all| && all[i] == ut && IsRejected(responses[i])
  {
    if all != [] {
      var n := |all| - 1;
      RejectedIff(all[..n], responses[..n], ut);
      if ut in RejectedTokens(all[..n], responses[..n]) {
        var i :| 0 <= i < n && all[..n][i] == ut && IsRejected(responses[..n][i]);
        assert all[i] == ut && IsRejected(responses[i]);
      }
      if exists i :: 0 <= i < |all| && all[i] == ut && IsRejected(responses[i]) {
        var i :| 0 <= i < |all| && all[i] == ut && IsRejected(responses[i]);
        if i < n {
          assert all[..n][i] == ut && IsRejected(responses[..n][i]);
        }
      }
    }
  }

  /** After the deletion loop a token document remains exactly when it was not queued;
      nothing but token collections changes. */
  lemma DeleteTokensEffect(s: Store, failed: seq<UserToken>)
    ensures DeleteTokens(s, failed) == s.(tokens := DeleteTokens(s, failed).tokens)
    ensures forall u: UserId, t: PushToken :: t in TokensOf(DeleteTokens(s, failed), u) <==>
      t in TokensOf(s, u) && UserToken(u, t.id) !in failed
  {
    DeleteTokensFrame(s, failed);
    forall u: UserId, t: PushToken
      ensures t in TokensOf(DeleteTokens(s, failed), u) <==> t in TokensOf(s, u) && UserToken(u, t.id) !in failed
    {
      DeleteTokensKeeps(s, failed, u, t);
    }
  }

  lemma {:induction false} DeleteTokensFrame(s: Store, failed: seq<UserToken>)
    ensures DeleteTokens(s, failed) == s.(tokens := DeleteTokens(s, failed).tokens)
  {
    if failed != [] {
      DeleteTokensFrame(s, failed[..|failed| - 1]);
    }
  }

  lemma {:induction false} DeleteTokensKeeps(s: Store, failed: seq<UserToken>, u: UserId, t: PushToken)
    ensures t in TokensOf(DeleteTokens(s, failed), u) <==> t in TokensOf(s, u) && UserToken(u, t.id) !in failed
  {
    if failed != [] {
      var init := failed[..|failed| - 1];
      var last := failed[|failed| - 1];
      DeleteTokensKeeps(s, init, u, t);
      assert failed == init + [last];
    }
  }

  /** With no tokens at all, nothing is sent and nothing changes. */
  lemma NoTokensNoEffect(s: Store, recipients: seq<UserId>, now: int, send: Transport)
    requires AllTokens(s, recipients) == []
    ensures ExpiredTokens(s, recipients, now) == []
    ensures DeleteTokens(s, ExpiredTokens(s, recipients, now)) == s
  {
    ExpiredAreCollected(s, recipients, now);
  }
}
