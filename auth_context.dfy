/**
 * The auth provider that carries a role and offers `signUp`: it follows
 * the auth service's `onAuthStateChanged` notifications, looks the
 * signed-in user's role up in the `users` collection, and on sign-up
 * derives the role and the profile document to store. The app's root
 * layouts mount this provider.
 */
module AuthContext {
  import opened Common

  /** The code that makes a new account an administrator. */
  const AdminCode: string := "ADMIN123"

  /**
   * The role after a notification for `u` whose document read settled as
   * `lookup`, when the role was `previous`. A stored role that is missing
   * or empty falls back to "user"; a rejected read leaves the role alone.
   */
  function RoleAfter(u: Option<Uid>, lookup: Lookup, previous: Option<string>): (role: Option<string>)
    ensures u.None? ==> role == None
    ensures u.Some? && lookup == Missing ==> role == Some("user")
    ensures u.Some? && lookup.Found? && lookup.field.Stored? && lookup.field.name != "" ==> role == Some(lookup.field.name)
    ensures u.Some? && (lookup == Found(Absent) || lookup == Found(Stored(""))) ==> role == Some("user")
    ensures u.Some? && lookup == Failed ==> role == previous
    ensures Settles(u, lookup) ==> (role.None? <==> u.None?) && (role.Some? ==> role.value != "")
  {
    match u
    case None => None
    case Some(_) =>
      match lookup
      case Missing => Some("user")
      case Found(field) => Some(if field.Stored? && field.name != "" then field.name else "user")
      case Failed => previous
  }

  /** The state the provider exposes. */
  class AuthProvider {
    var user: Option<Uid>
    var role: Option<string>
    var loading: bool
    /** How many notifications have run to their `setLoading(false)`. */
    ghost var settled: nat

    /** `loading` is true exactly until the first notification whose handler ran to the end. */
    ghost predicate Valid()
      reads this
    {
      loading <==> settled == 0
    }

    constructor ()
      ensures Valid()
      ensures user == None && role == None && loading && settled == 0
    {
      user := None;
      role := None;
      loading := true;
      settled := 0;
    }

    /**
     * The `onAuthStateChanged` callback, with the document read taken as
     * one atomic step. `user` is set first; a rejected read then ends the
     * handler, so neither `role` nor `loading` changes.
     */
    method OnAuthStateChanged(u: Option<Uid>, lookup: Lookup)
      requires Valid()
      modifies this
      ensures Valid()
      ensures user == u && role == RoleAfter(u, lookup, old(role))
      ensures loading == if Settles(u, lookup) then false else old(loading)
      ensures settled == old(settled) + if Settles(u, lookup) then 1 else 0
    {
      user := u;
      if u.Some? {
        match lookup {
          case Failed =>
            return;
          case Missing =>
            role := Some("user");
          case Found(field) =>
            role := Some(if field.Stored? && field.name != "" then field.name else "user");
        }
      } else {
        role := None;
      }
      loading := false;
      settled := settled + 1;
    }
  }

  /** The role chosen at sign-up: "admin" exactly when the admin code is given, otherwise "user". */
  function SignUpRole(adminCode: Option<string>): (role: string)
    ensures role == "admin" <==> adminCode == Some(AdminCode)
    ensures role == "user" <==> adminCode != Some(AdminCode)
  {
    if adminCode == Some(AdminCode) then "admin" else "user"
  }

  /** The fields `signUp` destructures from its argument; the optional ones may be absent. */
  datatype SignUpPayload = SignUpPayload(
    email: string, password: string,
    firstName: Option<string>, lastName: Option<string>, adminCode: Option<string>)

  /** The document `signUp` writes to `users/<uid>`; `createdAt` is the clock's reading at that moment. */
  datatype Profile = Profile(email: string, firstName: string, lastName: string, role: string, createdAt: int)

  /** `name || ''` on an optional string: a missing name is stored as "". */
  function Name(given: Option<string>): (name: string)
    ensures given.Some? ==> name == given.value
    ensures given.None? ==> name == ""
  {
    match given
    case None => ""
    case Some(s) => s
  }

  /** The profile document for a sign-up: email copied, missing names stored as "", and the derived role. */
  function SignUpProfile(payload: SignUpPayload, createdAt: int): (p: Profile)
    ensures p.email == payload.email && p.createdAt == createdAt
    ensures payload.firstName.Some? ==> p.firstName == payload.firstName.value
    ensures payload.firstName.None? ==> p.firstName == ""
    ensures payload.lastName.Some? ==> p.lastName == payload.lastName.value
    ensures payload.lastName.None? ==> p.lastName == ""
    ensures p.role in {"admin", "user"}
    ensures p.role == "admin" <==> payload.adminCode == Some(AdminCode)
  {
    Profile(payload.email, Name(payload.firstName), Name(payload.lastName), SignUpRole(payload.adminCode), createdAt)
  }

  /**
   * A notification for the account whose read finds the profile that
   * sign-up stored yields "admin" exactly when the admin code was given.
   */
  lemma SignUpRoleReadBack(payload: SignUpPayload, createdAt: int, uid: Uid, previous: Option<string>)
    ensures RoleAfter(Some(uid), Found(Stored(SignUpProfile(payload, createdAt).role)), previous)
            == Some(if payload.adminCode == Some(AdminCode) then "admin" else "user")
  {
  }

  /**
   * Creating the account signs it in before `setDoc` stores the profile.
   * If that notification's read runs first, it finds no document and the
   * provider holds "user" even for an administrator's sign-up; storing
   * the profile raises no notification, so the role stays "user" until the
   * next one.
   */
  lemma EarlyLookupSeesUser(payload: SignUpPayload, createdAt: int, uid: Uid, previous: Option<string>)
    requires payload.adminCode == Some(AdminCode)
    ensures SignUpProfile(payload, createdAt).role == "admin"
    ensures RoleAfter(Some(uid), Missing, previous) == Some("user")
  {
  }
}
