/** The signed-in user's profile (src/stores/current-user.ts): a profile object whose
    fields the actions assign one by one, the getters that read it, and the cache check
    in front of the profile query. The query's answer is passed in as the decoded
    profiles it returns; the live subscription set up after it is not modelled. */
module CurrentUser {
  import opened Wrappers
  import opened Js

  /** The fields `setUser` copies. */
  const USER_FIELDS: set<string> := {"id", "uid", "email", "firstName", "lastName", "username", "photoUrl", "createdAt"}

  /** The fields `setUpdatedUser` copies. */
  const UPDATED_FIELDS: set<string> := {"firstName", "lastName", "username", "photoUrl"}

  /** The fields `setRawUser` sets. */
  const RAW_FIELDS: set<string> := {"uid", "email", "username", "photoUrl"}

  /** An Auth user: its uid, and the email, display name and photo URL, each a string
      or null. */
  datatype AuthUser = AuthUser(uid: string, email: Value, displayName: Value, photoURL: Value)

  /** `isEmpty`: no profile document has been loaded. */
  predicate IsEmpty(user: Obj) {
    !Truthy(Get(user, "id"))
  }

  /** `isNotCompleted`: the profile has no first name yet. */
  predicate IsNotCompleted(user: Obj) {
    !Truthy(Get(user, "firstName"))
  }

  /** The cache check of `fetchUserByEmail`: the profile has that email and an id. */
  predicate IsCached(user: Obj, email: string) {
    StrictEq(Get(user, "email"), Str(email)) && Truthy(Get(user, "id"))
  }

  /** The profile after `setUser(user)`: the eight profile fields hold the given
      profile's values (undefined where it has none), `isOnline` is true, and every
      other field is as it was. */
  function WithUser(current: Obj, user: Obj): (r: Obj)
    ensures forall k :: k in r <==> k in current || k in USER_FIELDS || k == "isOnline"
    ensures forall k :: k in USER_FIELDS ==> r[k] == Get(user, k)
    ensures r["isOnline"] == Bool(true)
    ensures forall k :: k in current && k !in USER_FIELDS && k != "isOnline" ==> r[k] == current[k]
  {
    current["id" := Get(user, "id")]["uid" := Get(user, "uid")]["email" := Get(user, "email")]
      ["firstName" := Get(user, "firstName")]["lastName" := Get(user, "lastName")]["username" := Get(user, "username")]
      ["photoUrl" := Get(user, "photoUrl")]["createdAt" := Get(user, "createdAt")]["isOnline" := Bool(true)]
  }

  /** The profile after `setRawUser(user)` with an Auth user: the uid, the email, the
      username (the display name) and the photo URL come from it; every other field is
      as it was. */
  function WithRawUser(current: Obj, user: AuthUser): (r: Obj)
    ensures r.Keys == current.Keys + RAW_FIELDS
    ensures r["uid"] == Str(user.uid) && r["email"] == user.email
    ensures r["username"] == user.displayName && r["photoUrl"] == user.photoURL
    ensures forall k :: k in current && k !in RAW_FIELDS ==> r[k] == current[k]
  {
    current["uid" := Str(user.uid)]["email" := user.email]["username" := user.displayName]["photoUrl" := user.photoURL]
  }

  /** The profile after `setUpdatedUser(user)`: the first and last name, the username
      and the photo URL come from the given profile; every other field is as it was. */
  function WithUpdatedUser(current: Obj, user: Obj): (r: Obj)
    ensures r.Keys == current.Keys + UPDATED_FIELDS
    ensures forall k :: k in UPDATED_FIELDS ==> r[k] == Get(user, k)
    ensures forall k :: k in current && k !in UPDATED_FIELDS ==> r[k] == current[k]
  {
    current["firstName" := Get(user, "firstName")]["lastName" := Get(user, "lastName")]
      ["username" := Get(user, "username")]["photoUrl" := Get(user, "photoUrl")]
  }

  /** Loading a profile decides the getters: the store is empty, or incomplete, exactly
      when the loaded profile is. */
  lemma WithUserDecidesGetters(current: Obj, user: Obj)
    ensures IsEmpty(WithUser(current, user)) <==> IsEmpty(user)
    ensures IsNotCompleted(WithUser(current, user)) <==> IsNotCompleted(user)
  {
    assert "id" in USER_FIELDS && "firstName" in USER_FIELDS;
  }

  /** Setting the same profile twice is setting it once. */
  lemma WithUserIdempotent(current: Obj, user: Obj)
    ensures WithUser(WithUser(current, user), user) == WithUser(current, user)
  {
    var once := WithUser(current, user);
    var twice := WithUser(once, user);
    forall k | k in twice ensures k in once && twice[k] == once[k] {
    }
  }

  /** The Auth user never touches the profile's id: signing in with Auth alone leaves
      an empty store empty. */
  lemma RawUserKeepsEmptiness(current: Obj, user: AuthUser)
    ensures IsEmpty(WithRawUser(current, user)) <==> IsEmpty(current)
  {
    assert "id" !in RAW_FIELDS;
  }

  /** A profile change from the live subscription keeps the identity of the cached
      profile: the id and the email stay, so the cache check answers as before. */
  lemma UpdateKeepsCache(current: Obj, user: Obj, email: string)
    ensures IsCached(WithUpdatedUser(current, user), email) <==> IsCached(current, email)
  {
    assert "id" !in UPDATED_FIELDS && "email" !in UPDATED_FIELDS;
  }

  /** `useCurrentUserStore` */
  class CurrentUserStore {
    var currentUser: Obj

    /** `new UserProfileEntity()` assigns no field. */
    constructor()
      ensures currentUser == map[]
      ensures IsEmpty(currentUser) && IsNotCompleted(currentUser)
    {
      currentUser := map[];
    }

    /** `setUser` */
    method SetUser(user: Obj)
      modifies this
      ensures currentUser == WithUser(old(currentUser), user)
    {
      currentUser := currentUser["id" := Get(user, "id")];
      currentUser := currentUser["uid" := Get(user, "uid")];
      currentUser := currentUser["email" := Get(user, "email")];
      currentUser := currentUser["firstName" := Get(user, "firstName")];
      currentUser := currentUser["lastName" := Get(user, "lastName")];
      currentUser := currentUser["username" := Get(user, "username")];
      currentUser := currentUser["photoUrl" := Get(user, "photoUrl")];
      currentUser := currentUser["createdAt" := Get(user, "createdAt")];
      currentUser := currentUser["isOnline" := Bool(true)];
    }

    /** `setRawUser`: without an Auth user nothing changes. */
    method SetRawUser(user: Option<AuthUser>)
      modifies this
      ensures user.None? ==> currentUser == old(currentUser)
      ensures user.Some? ==> currentUser == WithRawUser(old(currentUser), user.value)
    {
      if user.None? {
        return;
      }
      var u := user.value;
      currentUser := currentUser["uid" := Str(u.uid)];
      currentUser := currentUser["email" := u.email];
      currentUser := currentUser["username" := u.displayName];
      currentUser := currentUser["photoUrl" := u.photoURL];
    }

    /** `setUpdatedUser` */
    method SetUpdatedUser(updatedUser: Obj)
      modifies this
      ensures currentUser == WithUpdatedUser(old(currentUser), updatedUser)
    {
      currentUser := currentUser["firstName" := Get(updatedUser, "firstName")];
      currentUser := currentUser["lastName" := Get(updatedUser, "lastName")];
      currentUser := currentUser["username" := Get(updatedUser, "username")];
      currentUser := currentUser["photoUrl" := Get(updatedUser, "photoUrl")];
    }

    /** `fetchUserByEmail(email)`, where `found` is what the query for that email
        returns. A cached profile is returned without querying; an empty answer gives
        null and changes nothing; otherwise the first profile is taken over. `queried`
        says whether the query ran. A profile taken over from the query, which has that
        email, is cached for the next call when it has an id. */
    method FetchUserByEmail(email: string, found: seq<Obj>) returns (r: Option<Obj>, queried: bool)
      modifies this
      ensures queried <==> !IsCached(old(currentUser), email)
      ensures !queried ==> r == Some(currentUser) && currentUser == old(currentUser)
      ensures queried && found == [] ==> r.None? && currentUser == old(currentUser)
      ensures queried && found != [] ==> currentUser == WithUser(old(currentUser), found[0]) && r == Some(currentUser)
      ensures queried && found != [] && Get(found[0], "email") == Str(email) && !IsEmpty(found[0]) ==>
        IsCached(currentUser, email)
    {
      if IsCached(currentUser, email) {
        return Some(currentUser), false;
      }
      queried := true;
      if found == [] {
        return None, queried;
      }
      SetUser(found[0]);
      assert "id" in USER_FIELDS && "email" in USER_FIELDS;
      r := Some(currentUser);
    }
  }
}
