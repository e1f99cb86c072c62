/**
 * The sign-in screen: `handleLogin` rejects an empty field, otherwise
 * calls the auth service's `login` with the `loading` flag raised around
 * the call, then navigates on success or shows the error on failure.
 */
module LoginScreen {
  import opened Common
  import opened Ui

  const FillAllFields: string := "Please fill in all fields"

  /** Both fields are filled in, so the backend is called. */
  predicate Submits(email: string, password: string)
  {
    email != "" && password != ""
  }

  /** What one press of "Sign In" does, given how the `login` call settles. */
  function LoginEffects(email: string, password: string, outcome: CallOutcome): (fx: seq<Effect>)
    ensures !Submits(email, password) ==> fx == [Alert("Error", FillAllFields)]
    ensures (exists k :: 0 <= k < |fx| && fx[k].LoginCall?) <==> Submits(email, password)
    ensures forall k :: 0 <= k < |fx| && fx[k].LoginCall? ==> k == 1 && fx[k] == LoginCall(email, password)
    ensures Submits(email, password) ==> |fx| == 4
    ensures Submits(email, password) ==> fx[0] == SetLoading(true) && fx[|fx| - 1] == SetLoading(false)
    ensures Replace(TabsRoute) in fx <==> Submits(email, password) && outcome.Resolved?
    ensures forall j, k :: 0 <= j < |fx| && 0 <= k < |fx| && fx[j].LoginCall? && fx[k].Replace? ==> j < k
    ensures forall m :: Submits(email, password) && outcome == Rejected(m) ==> Alert("Login Failed", m) in fx
    ensures outcome.Resolved? ==> forall k :: 0 <= k < |fx| && fx[k].Alert? ==> !Submits(email, password)
    ensures forall k :: 0 <= k < |fx| ==> !fx[k].RegisterCall?
  {
    if !Submits(email, password) then [Alert("Error", FillAllFields)]
    else
      var settled := match outcome
        case Resolved => Replace(TabsRoute)
        case Rejected(m) => Alert("Login Failed", m);
      var fx := [SetLoading(true), LoginCall(email, password), settled, SetLoading(false)];
      assert fx[1].LoginCall?;
      fx
  }

  /**
   * The flag is up while `login` is in flight and down once it has
   * settled, on success and on failure; a press with an empty field
   * leaves the flag as it was.
   */
  lemma LoginLoading(email: string, password: string, outcome: CallOutcome, start: bool)
    ensures var fx := LoginEffects(email, password, outcome);
            forall k :: 0 <= k < |fx| && fx[k].LoginCall? ==> LoadingAfter(start, fx[..k])
    ensures LoadingAfter(start, LoginEffects(email, password, outcome))
            == (if Submits(email, password) then false else start)
  {
    var fx := LoginEffects(email, password, outcome);
    if Submits(email, password) {
      assert fx[..1] == [] + [SetLoading(true)];
      LoadingAfterLastSet(start, [], true);
      assert fx == fx[..3] + [SetLoading(false)];
      LoadingAfterLastSet(start, fx[..3], false);
    } else {
      LoadingAfterNoSet(start, fx);
    }
  }

  /** `handleLogin`, run to completion on the fields as they stand when the button is pressed. */
  method HandleLogin(screen: ScreenState, email: string, password: string, outcome: CallOutcome)
    requires screen.Valid()
    modifies screen
    ensures screen.Valid()
    ensures screen.effects == old(screen.effects) + LoginEffects(email, password, outcome)
    ensures screen.loading == if Submits(email, password) then false else old(screen.loading)
  {
    if email == "" || password == "" {
      screen.Emit(Alert("Error", FillAllFields));
      return;
    }
    screen.SetLoadingFlag(true);
    screen.Emit(LoginCall(email, password));
    match outcome {
      case Resolved =>
        screen.Emit(Replace(TabsRoute));
      case Rejected(message) =>
        screen.Emit(Alert("Login Failed", message));
    }
    screen.SetLoadingFlag(false);
  }
}
