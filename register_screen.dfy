/**
 * The sign-up screen: `handleRegister` checks the form in a fixed order,
 * then calls the auth service's `register` with the `loading` flag raised
 * around the call.
 */
module RegisterScreen {
  import opened Common
  import opened Ui

  datatype Form = Form(fullName: string, email: string, password: string, confirmPassword: string)

  const FillAllFields: string := "Please fill in all fields"
  const PasswordsMismatch: string := "Passwords do not match"
  const RegistrationFailed: string := "Registration Failed..! Please try again later"

  /** The first check: one of the three required fields is the empty string (confirmPassword is not among them). */
  predicate MissingField(form: Form)
  {
    form.fullName == "" || form.email == "" || form.password == ""
  }

  /** Both checks pass, so the backend is called. */
  predicate Submits(form: Form)
  {
    !MissingField(form) && form.password == form.confirmPassword
  }

  /** What one press of "Create Account" does, given how the `register` call settles. */
  function RegisterEffects(form: Form, outcome: CallOutcome): (fx: seq<Effect>)
    ensures MissingField(form) ==> fx == [Alert("Error", FillAllFields)]
    ensures !MissingField(form) && form.password != form.confirmPassword ==> fx == [Alert("Error", PasswordsMismatch)]
    ensures (exists k :: 0 <= k < |fx| && fx[k].RegisterCall?) <==> Submits(form)
    ensures forall k :: 0 <= k < |fx| && fx[k].RegisterCall? ==>
              k == 1 && fx[k] == RegisterCall(form.email, form.password, form.fullName)
    ensures Submits(form) ==> fx[0] == SetLoading(true) && fx[|fx| - 1] == SetLoading(false)
    ensures Submits(form) && outcome.Rejected? <==> Alert("Error :", RegistrationFailed) in fx
    ensures Submits(form) ==> |fx| == if outcome.Rejected? then 4 else 3
    ensures Submits(form) && outcome.Resolved? ==> forall k :: 0 <= k < |fx| ==> !fx[k].Alert?
    ensures Submits(form) && outcome.Rejected? ==>
              forall k :: 0 <= k < |fx| && fx[k].Alert? ==> fx[k] == Alert("Error :", RegistrationFailed)
    ensures forall k :: 0 <= k < |fx| && fx[k].Alert? ==>
              fx[k].message in {FillAllFields, PasswordsMismatch, RegistrationFailed}
    ensures forall k :: 0 <= k < |fx| ==> !fx[k].Replace? && !fx[k].LoginCall?
  {
    if MissingField(form) then [Alert("Error", FillAllFields)]
    else if form.password != form.confirmPassword then [Alert("Error", PasswordsMismatch)]
    else
      var fx := [SetLoading(true), RegisterCall(form.email, form.password, form.fullName)]
                + (if outcome.Rejected? then [Alert("Error :", RegistrationFailed)] else [])
                + [SetLoading(false)];
      assert fx[1].RegisterCall?;
      fx
  }

  /**
   * The flag is up while `register` is in flight and down once it has
   * settled, on success and on failure; a press rejected by a check
   * leaves the flag as it was.
   */
  lemma RegisterLoading(form: Form, outcome: CallOutcome, start: bool)
    ensures var fx := RegisterEffects(form, outcome);
            forall k :: 0 <= k < |fx| && fx[k].RegisterCall? ==> LoadingAfter(start, fx[..k])
    ensures LoadingAfter(start, RegisterEffects(form, outcome)) == (if Submits(form) then false else start)
  {
    var fx := RegisterEffects(form, outcome);
    if Submits(form) {
      assert fx[..1] == [SetLoading(true)];
      LoadingAfterLastSet(start, [], true);
      assert [] + [SetLoading(true)] == [SetLoading(true)];
      LoadingAfterLastSet(start, fx[..|fx| - 1], false);
      assert fx[..|fx| - 1] + [SetLoading(false)] == fx;
    } else {
      LoadingAfterNoSet(start, fx);
    }
  }

  /** The failure alert never depends on the error that `register` rejected with. */
  lemma FailureMessageIgnored(form: Form, m1: string, m2: string)
    ensures RegisterEffects(form, Rejected(m1)) == RegisterEffects(form, Rejected(m2))
  {
  }

  /** `handleRegister`, run to completion on the form as it stands when the button is pressed. */
  method HandleRegister(screen: ScreenState, form: Form, outcome: CallOutcome)
    requires screen.Valid()
    modifies screen
    ensures screen.Valid()
    ensures screen.effects == old(screen.effects) + RegisterEffects(form, outcome)
    ensures screen.loading == if Submits(form) then false else old(screen.loading)
  {
    if form.fullName == "" || form.email == "" || form.password == "" {
      screen.Emit(Alert("Error", FillAllFields));
      return;
    }
    if form.password != form.confirmPassword {
      screen.Emit(Alert("Error", PasswordsMismatch));
      return;
    }
    screen.SetLoadingFlag(true);
    screen.Emit(RegisterCall(form.email, form.password, form.fullName));
    if outcome.Rejected? {
      screen.Emit(Alert("Error :", RegistrationFailed));
    }
    screen.SetLoadingFlag(false);
  }
}
