/**
 * The auth provider that `useAuth` reads, imported by the sign-in,
 * sign-up and tab screens. It follows `onAuthStateChanged` like the other
 * provider, but stores the users document's role as it finds it, with no
 * fallback. No root layout mounts it: the screens that read it see its
 * default value (module ScreenSession).
 */
module UseAuthContext {
  import opened Common
  import AuthContext

  /**
   * The provider's `userRole`: None is `null` (nobody signed in);
   * Some(Absent) is the `undefined` read from a document without a role.
   */
  type UserRole = Option<RoleField>

  /** The value the context exposes. */
  datatype ContextValue = ContextValue(user: Option<Uid>, userRole: UserRole, loading: bool)

  /** The value seen by a consumer outside any provider, and the provider's own initial state. */
  const DefaultValue: ContextValue := ContextValue(None, None, true)

  /**
   * The role after a notification for `u` whose document read settled as
   * `lookup`, when the role was `previous`: the stored role field verbatim,
   * "user" when there is no document, and unchanged when the read rejects.
   */
  function RoleAfter(u: Option<Uid>, lookup: Lookup, previous: UserRole): (userRole: UserRole)
    ensures u.None? ==> userRole == None
    ensures u.Some? && lookup.Found? ==> userRole == Some(lookup.field)
    ensures u.Some? && lookup == Missing ==> userRole == Some(Stored("user"))
    ensures u.Some? && lookup == Failed ==> userRole == previous
  {
    match u
    case None => None
    case Some(_) =>
      match lookup
      case Found(field) => Some(field)
      case Missing => Some(Stored("user"))
      case Failed => previous
  }

  class AuthProvider {
    var user: Option<Uid>
    var userRole: UserRole
    var loading: bool
    /** How many notifications have run to their `setLoading(false)`. */
    ghost var settled: nat

    /** `loading` is true exactly until the first notification whose handler ran to the end. */
    ghost predicate Valid()
      reads this
    {
      loading <==> settled == 0
    }

    function Value(): ContextValue
      reads this
    {
      ContextValue(user, userRole, loading)
    }

    constructor ()
      ensures Valid() && settled == 0
      ensures Value() == DefaultValue
    {
      user := None;
      userRole := None;
      loading := true;
      settled := 0;
    }

    /**
     * The `onAuthStateChanged` callback, with the document read taken as
     * one atomic step. `user` is set first; a rejected read then ends the
     * handler, so neither `userRole` nor `loading` changes.
     */
    method OnAuthStateChanged(u: Option<Uid>, lookup: Lookup)
      requires Valid()
      modifies this
      ensures Valid()
      ensures Value() == ContextValue(u, RoleAfter(u, lookup, old(userRole)),
                                      if Settles(u, lookup) then false else old(loading))
      ensures settled == old(settled) + if Settles(u, lookup) then 1 else 0
    {
      user := u;
      if u.Some? {
        match lookup {
          case Failed =>
            return;
          case Found(field) =>
            userRole := Some(field);
          case Missing =>
            userRole := Some(Stored("user"));
        }
      } else {
        userRole := None;
      }
      loading := false;
      settled := settled + 1;
    }
  }

  /** The role the other provider would hold, written in this provider's terms. */
  function AsUserRole(role: Option<string>): UserRole
  {
    match role
    case None => None
    case Some(name) => Some(Stored(name))
  }

  /**
   * From corresponding roles, the two providers hold the same role after
   * the same notification, except when a signed-in user's document has a
   * missing or empty role: then only the other provider falls back to "user".
   */
  lemma ProvidersDifferOnlyOnFalsyRole(u: Option<Uid>, lookup: Lookup, previous: Option<string>)
    ensures RoleAfter(u, lookup, AsUserRole(previous)) == AsUserRole(AuthContext.RoleAfter(u, lookup, previous))
            <==> !(u.Some? && (lookup == Found(Absent) || lookup == Found(Stored(""))))
  {
    var ours, theirs := RoleAfter(u, lookup, AsUserRole(previous)), AuthContext.RoleAfter(u, lookup, previous);
    if u.Some? {
      match lookup
      case Missing =>
      case Failed =>
      case Found(Absent) =>
        assert ours == Some(Absent) && theirs == Some("user");
      case Found(Stored(name)) =>
        if name == "" {
          assert ours == Some(Stored("")) && theirs == Some("user");
        } else {
          assert theirs == Some(name);
        }
    }
  }

  /** A document written by sign-up is read back by this provider with the role sign-up derived. */
  lemma SignUpRoleReadBack(payload: AuthContext.SignUpPayload, createdAt: int, uid: Uid, previous: UserRole)
    ensures RoleAfter(Some(uid), Found(Stored(AuthContext.SignUpProfile(payload, createdAt).role)), previous)
            == Some(Stored(if payload.adminCode == Some(AuthContext.AdminCode) then "admin" else "user"))
  {
  }
}
