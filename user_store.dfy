/** The profile store of the sign-up and profile pages (src/stores/user.ts): a plain
    record of six strings, initially empty, filled from a profile document. The query
    and the document read are passed in as their answers. */
module UserStore {
  import opened Wrappers
  import opened Js

  /** The fields `setUser` copies; `username` is not one of them. */
  const COPIED_FIELDS: set<string> := {"uid", "firstName", "lastName", "email", "createdAt"}

  /** The initial record: each of the six fields is the empty string. */
  const INITIAL_USER: Obj := map["username" := Str(""), "firstName" := Str(""), "lastName" := Str(""),
                                 "email" := Str(""), "uid" := Str(""), "createdAt" := Str("")]

  /** `isEmpty`: the record has no uid. */
  predicate IsEmpty(user: Obj) {
    !Truthy(Get(user, "uid"))
  }

  /** `isNotCompleted`: the record has no first name. */
  predicate IsNotCompleted(user: Obj) {
    !Truthy(Get(user, "firstName"))
  }

  /** The record after `setUser(data)`: five fields hold the data's values (undefined
      where it has none); the username and any other field are as they were. */
  function WithData(user: Obj, data: Obj): (r: Obj)
    ensures r.Keys == user.Keys + COPIED_FIELDS
    ensures forall k :: k in COPIED_FIELDS ==> r[k] == Get(data, k)
    ensures forall k :: k in user && k !in COPIED_FIELDS ==> r[k] == user[k]
  {
    user["uid" := Get(data, "uid")]["firstName" := Get(data, "firstName")]["lastName" := Get(data, "lastName")]
      ["email" := Get(data, "email")]["createdAt" := Get(data, "createdAt")]
  }

  /** The username survives every `setUser`, so after loading any profile the record
      still has the username it started with. */
  lemma UsernameNeverCopied(user: Obj, data: Obj)
    requires "username" in user
    ensures Get(WithData(user, data), "username") == user["username"]
  {
    assert "username" !in COPIED_FIELDS;
  }

  /** Loading a profile decides the getters. */
  lemma WithDataDecidesGetters(user: Obj, data: Obj)
    ensures IsEmpty(WithData(user, data)) <==> IsEmpty(data)
    ensures IsNotCompleted(WithData(user, data)) <==> IsNotCompleted(data)
  {
    assert "uid" in COPIED_FIELDS && "firstName" in COPIED_FIELDS;
  }

  /** Before any profile is loaded, asking for the empty email is answered from the
      initial record, whose email is the empty string too. */
  lemma EmptyEmailHitsInitialRecord()
    ensures StrictEq(Get(INITIAL_USER, "email"), Str(""))
    ensures IsEmpty(INITIAL_USER) && IsNotCompleted(INITIAL_USER)
  {
  }

  /** `useUserStore` */
  class UserStore {
    var user: Obj

    constructor()
      ensures user == INITIAL_USER
    {
      user := INITIAL_USER;
    }

    /** `setUser` */
    method SetUser(data: Obj)
      modifies this
      ensures user == WithData(old(user), data)
    {
      user := user["uid" := Get(data, "uid")];
      user := user["firstName" := Get(data, "firstName")];
      user := user["lastName" := Get(data, "lastName")];
      user := user["email" := Get(data, "email")];
      user := user["createdAt" := Get(data, "createdAt")];
    }

    /** `fetchUser(username)`, where `data` is the document's data, `None` when there
        is no such document. An empty username makes `doc` throw; a missing document
        makes `setUser(undefined)` throw; either way nothing changes. */
    method FetchUser(username: string, data: Option<Obj>) returns (ok: bool)
      modifies this
      ensures ok <==> username != "" && data.Some?
      ensures ok ==> user == WithData(old(user), data.value)
      ensures !ok ==> user == old(user)
    {
      if username == "" || data.None? {
        return false;
      }
      SetUser(data.value);
      return true;
    }

    /** `fetchUserProfileByEmail(email)`, where `found` is what the query for that email
        returns. When the record already has that email it is returned without
        querying; an empty answer gives null and changes nothing; otherwise the first
        document's data is taken over and returned. A taken-over profile with that email
        is answered from the record next time. */
    method FetchUserProfileByEmail(email: string, found: seq<Obj>) returns (r: Option<Obj>, queried: bool)
      modifies this
      ensures queried <==> !StrictEq(Get(old(user), "email"), Str(email))
      ensures !queried ==> r == Some(user) && user == old(user)
      ensures queried && found == [] ==> r.None? && user == old(user)
      ensures queried && found != [] ==> r == Some(found[0]) && user == WithData(old(user), found[0])
      ensures queried && found != [] && Get(found[0], "email") == Str(email) ==> StrictEq(Get(user, "email"), Str(email))
    {
      if StrictEq(Get(user, "email"), Str(email)) {
        return Some(user), false;
      }
      queried := true;
      if found == [] {
        return None, queried;
      }
      SetUser(found[0]);
      assert "email" in COPIED_FIELDS;
      r := Some(found[0]);
    }
  }
}
