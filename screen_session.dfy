/**
 * Which session the sign-in and sign-up screens see. They read `useAuth`
 * from the context of module UseAuthContext, but the root layouts mount
 * only the provider of module AuthContext. React then hands the screens
 * the context's default value, whose `user` is always null, so their
 * redirect effects never fire.
 */
module ScreenSession {
  import opened Common
  import opened Ui
  import RegisterScreen
  import AuthContext
  import UseAuthContext

  /** `useContext`: the value of the nearest mounted provider, or the context's default when none is mounted. */
  function UseAuth(mounted: Option<UseAuthContext.ContextValue>): (v: UseAuthContext.ContextValue)
    ensures mounted.None? ==> v == UseAuthContext.DefaultValue && v.user == None && v.loading
    ensures mounted.Some? ==> v == mounted.value
  {
    match mounted
    case None => UseAuthContext.DefaultValue
    case Some(value) => value
  }

  /**
   * As written: a sign-up goes through, the account is signed in and the
   * mounted provider sees it, yet the screen's redirect reads the default
   * value and the screen never navigates.
   */
  method RegisterAsWired(screen: ScreenState, mounted: AuthContext.AuthProvider,
                         form: RegisterScreen.Form, uid: Uid, lookup: Lookup)
    requires screen.Valid() && mounted.Valid()
    requires RegisterScreen.Submits(form)
    modifies screen, mounted
    ensures screen.Valid() && mounted.Valid()
    ensures mounted.user == Some(uid)
    ensures screen.effects == old(screen.effects) + RegisterScreen.RegisterEffects(form, Resolved)
    ensures Replace(TabsRoute) !in screen.effects[|old(screen.effects)|..]
  {
    RegisterScreen.HandleRegister(screen, form, Resolved);
    mounted.OnAuthStateChanged(Some(uid), lookup);
    screen.OnUserChanged(UseAuth(None).user);
  }

  /**
   * As intended: with the screens' provider mounted above them, the
   * notification for the new account reaches it and the redirect sends
   * the user to the tabs, as the comment after the `register` call says.
   */
  method RegisterWithSessionMounted(screen: ScreenState, session: UseAuthContext.AuthProvider,
                                    form: RegisterScreen.Form, uid: Uid, lookup: Lookup)
    requires screen.Valid() && session.Valid()
    requires RegisterScreen.Submits(form)
    modifies screen, session
    ensures screen.Valid() && session.Valid()
    ensures session.user == Some(uid)
    ensures screen.effects == old(screen.effects) + RegisterScreen.RegisterEffects(form, Resolved) + [Replace(TabsRoute)]
    ensures Replace(TabsRoute) in screen.effects[|old(screen.effects)|..]
  {
    RegisterScreen.HandleRegister(screen, form, Resolved);
    session.OnAuthStateChanged(Some(uid), lookup);
    screen.OnUserChanged(UseAuth(Some(session.Value())).user);
    ghost var added := screen.effects[|old(screen.effects)|..];
    assert added[|added| - 1] == Replace(TabsRoute);
  }
}
