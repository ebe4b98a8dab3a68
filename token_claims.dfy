/** The `username` custom claim (cloud_functions/functions/src/token_claims.ts): set when
    a user signs in, and reset whenever a profile's username changes, with a refresh time
    that tells the client to refresh its ID token. */
module TokenClaims {
  import opened Wrappers
  import opened Js
  import opened Models
  import opened Firestore

  /** Three minutes, in milliseconds. */
  const REFRESH_DELAY: int := 1000 * 60 * 3

  /** `getUsernameByUid(uid)`: the username of the first profile of the Auth user, or
      nothing when there is no uid, no such profile, or a profile without a username. */
  function GetUsernameByUid(users: seq<UserDoc>, uid: Option<string>): (r: Option<string>)
    ensures r.Some? <==> TruthyStr(uid) && UserByUid(users, uid.value).Some?
                         && TruthyStr(UserByUid(users, uid.value).value.username)
    ensures r.Some? ==> r.value != "" && r == UserByUid(users, uid.value).value.username
  {
    if !TruthyStr(uid) then None
    else
      match UserByUid(users, uid.value)
      case None => None
      case Some(doc) => if TruthyStr(doc.username) then doc.username else None
  }

  /** What the blocking sign-in function returns: nothing, an empty object, or custom
      claims with a username. */
  datatype SignInResponse = NoResponse | EmptyResponse | CustomClaims(username: string)

  /** `setTokenClaimsBeforeUserSignedIn`: with a credential carrying claims, the
      username of the user's first profile becomes the `username` claim; without one
      the response is empty. */
  function BeforeUserSignedIn(s: Store, hasCredentialClaims: bool, uid: Option<string>): (r: SignInResponse)
    ensures !hasCredentialClaims ==> r == NoResponse
    ensures r.CustomClaims? <==> hasCredentialClaims && GetUsernameByUid(s.users, uid).Some?
    ensures r.CustomClaims? ==> r.username != "" && Some(r.username) == GetUsernameByUid(s.users, uid)
  {
    if !hasCredentialClaims then NoResponse
    else
      match GetUsernameByUid(s.users, uid)
      case None => EmptyResponse
      case Some(username) => CustomClaims(username)
  }

  /** The path the write branch sets. */
  function RefreshTimePath(username: string): string {
    "refreshTime/" + username
  }

  /** The path the "removed" branch deletes. */
  function MetadataRefreshTimePath(username: string): string {
    "metadata/" + username + "/refreshTime"
  }

  /** The document one side of the write event carries: `None` when the snapshot is
      missing, `Some(None)` when it has no data. */
  type Side = Option<Option<UserDoc>>

  /** The write branch of `setTokenClaimsAfterUserUpdate` for `users/{username}`: when
      the document exists, its username changed (or it is new) and it names an Auth
      user, the claim is set unless `setCustomUserClaims` fails (`claimsFail`, caught),
      and the refresh time is set to three minutes from now. */
  function UserWritten(s: Store, username: string, before: Side, after: Side, now: int, claimsFail: bool): Store {
    if after.None? || after.value.None? then s
    else
      var data := after.value.value;
      if before.Some? && before.value.Some? && data.username == before.value.value.username then s
      else if !TruthyStr(data.uid) then s
      else
        var claimed := if claimsFail then s else s.(claims := s.claims[data.uid.value := username]);
        claimed.(refreshTimes := claimed.refreshTimes[RefreshTimePath(username) := now + REFRESH_DELAY])
  }

  /** `setTokenClaimsAfterUserUpdate`, as written: a "removed" event deletes
      `metadata/{username}/refreshTime`, a path of three segments that names a
      collection, not a document, so the delete throws and the refresh time written at
      `refreshTime/{username}` is never removed. */
  function AfterUserUpdate(s: Store, eventType: string, username: string, before: Side, after: Side,
                           now: int, claimsFail: bool): (Store, Outcome)
  {
    if eventType == "removed" then (s, Aborted)
    else (UserWritten(s, username, before, after, now, claimsFail), Completed)
  }

  /** The two paths never name the same document. */
  lemma RefreshPathsDiffer(a: string, b: string)
    ensures RefreshTimePath(a) != MetadataRefreshTimePath(b)
  {
    assert RefreshTimePath(a)[0] == 'r';
    assert MetadataRefreshTimePath(b)[0] == 'm';
  }

  /** A new username sets the claim and the refresh time; nothing else changes. */
  lemma UsernameChangeSetsClaim(s: Store, username: string, before: Side, data: UserDoc, now: int)
    requires TruthyStr(data.uid)
    requires before.None? || before.value.None? || before.value.value.username != data.username
    ensures var r := AfterUserUpdate(s, "written", username, before, Some(Some(data)), now, false);
      && r.1 == Completed
      && r.0.claims == s.claims[data.uid.value := username]
      && r.0.refreshTimes == s.refreshTimes[RefreshTimePath(username) := now + REFRESH_DELAY]
      && r.0 == s.(claims := r.0.claims, refreshTimes := r.0.refreshTimes)
  {
  }

  /** A write that keeps the username changes nothing. */
  lemma SameUsernameSkips(s: Store, eventType: string, username: string, previous: UserDoc, data: UserDoc,
                          now: int, claimsFail: bool)
    requires eventType != "removed"
    requires previous.username == data.username
    ensures AfterUserUpdate(s, eventType, username, Some(Some(previous)), Some(Some(data)), now, claimsFail) == (s, Completed)
  {
  }

  /** As written: after a profile's username was set, the removal event leaves its
      refresh time in place. */
  lemma RemovalKeepsRefreshTime(s: Store, username: string, data: UserDoc, now: int, later: int)
    requires TruthyStr(data.uid)
    ensures var written := AfterUserUpdate(s, "written", username, None, Some(Some(data)), now, false).0;
      var removed := AfterUserUpdate(written, "removed", username, Some(Some(data)), None, later, false);
      && removed.1 == Aborted
      && RefreshTimePath(username) in removed.0.refreshTimes
  {
  }
}
