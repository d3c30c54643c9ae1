/**
 * The registration screen's submit handler: an ordered chain of guards
 * over the four form fields, each rejecting with a fixed message, and,
 * once all pass, a `loading` flag that stays up until a one-second timer
 * reports success. The backend is not called (the screen has a stub).
 */
module Register {
  import opened JsValues

  const FillAllFields: string := "Please fill in all fields"
  const PasswordTooShort: string := "Password must be at least 6 characters"
  const PasswordsDiffer: string := "Passwords do not match"
  const AccountCreated: string := "Account created successfully!"
  const MinPasswordLength: nat := 6
  /** Where the success dialog's OK button navigates. */
  const HomeRoute: string := "/(tabs)/home"

  /** An `Alert.alert` dialog; `onOk` is the route its OK button replaces the screen with. */
  datatype Alert = Alert(title: string, message: string, onOk: Option<string>)

  predicate AnyEmpty(username: string, email: string, password: string, confirmPassword: string)
  {
    username == [] || email == [] || password == [] || confirmPassword == []
  }

  /**
   * The guard chain: the message of the first guard that fails, or None
   * when the form may be submitted. Length is JavaScript's `length`.
   */
  function Validate(username: string, email: string, password: string, confirmPassword: string)
    : (r: Option<string>)
    ensures r == None <==> !AnyEmpty(username, email, password, confirmPassword)
                           && JsLength(password) >= MinPasswordLength
                           && password == confirmPassword
    ensures r.Some? ==> r.value in {FillAllFields, PasswordTooShort, PasswordsDiffer}
  {
    if AnyEmpty(username, email, password, confirmPassword) then Some(FillAllFields)
    else if JsLength(password) < MinPasswordLength then Some(PasswordTooShort)
    else if password != confirmPassword then Some(PasswordsDiffer)
    else None
  }

  /** An empty field is reported first, even when the password is also short or mismatched. */
  lemma EmptyFieldWins(username: string, email: string, password: string, confirmPassword: string)
    requires AnyEmpty(username, email, password, confirmPassword)
    ensures Validate(username, email, password, confirmPassword) == Some(FillAllFields)
  {
  }

  /**
   * With every field filled, the length guard rejects exactly the
   * passwords shorter than six; six itself passes it.
   */
  lemma LengthGuard(username: string, email: string, password: string, confirmPassword: string)
    requires !AnyEmpty(username, email, password, confirmPassword)
    ensures Validate(username, email, password, confirmPassword) == Some(PasswordTooShort)
            <==> JsLength(password) < 6
    ensures JsLength(password) == 6 ==>
              Validate(username, email, password, confirmPassword) != Some(PasswordTooShort)
  {
  }

  /** A mismatch is reported only once the fields are filled and the length guard has passed. */
  lemma MismatchGuard(username: string, email: string, password: string, confirmPassword: string)
    ensures Validate(username, email, password, confirmPassword) == Some(PasswordsDiffer)
            <==> !AnyEmpty(username, email, password, confirmPassword)
                 && JsLength(password) >= 6 && password != confirmPassword
  {
  }

  /**
   * The length is counted in UTF-16 code units: three characters outside
   * the Basic Multilingual Plane make a password long enough.
   */
  lemma ThreeAstralCharactersAreLongEnough()
    ensures var pw := "\U{1F600}\U{1F601}\U{1F602}";
            |pw| == 3 && Validate("u", "e", pw, pw) == None
  {
    var pw := "\U{1F600}\U{1F601}\U{1F602}";
    assert pw[1..][1..][1..] == [];
    assert JsLength(pw) == 6;
  }

  /** The form's state on the screen. */
  class RegisterScreen {
    var username: string
    var email: string
    var password: string
    var confirmPassword: string
    var loading: bool
    /** Timer callbacks scheduled and not yet run. */
    ghost var pendingTimers: nat

    constructor ()
      ensures username == [] && email == [] && password == [] && confirmPassword == []
      ensures !loading && pendingTimers == 0
    {
      username, email, password, confirmPassword := [], [], [], [];
      loading := false;
      pendingTimers := 0;
    }

    function Verdict(): Option<string>
      reads this
    {
      Validate(username, email, password, confirmPassword)
    }

    /**
     * `handleRegister`: a failing guard shows its message and returns with
     * `loading` untouched; otherwise `loading` goes up and the timer is set.
     */
    method HandleRegister() returns (alert: Option<Alert>)
      modifies this`loading, this`pendingTimers
      ensures old(Verdict()).Some? ==>
                alert == Some(Alert("Error", old(Verdict()).value, None))
                && loading == old(loading) && pendingTimers == old(pendingTimers)
      ensures old(Verdict()) == None ==>
                alert == None && loading && pendingTimers == old(pendingTimers) + 1
    {
      if username == [] || email == [] || password == [] || confirmPassword == [] {
        return Some(Alert("Error", FillAllFields, None));
      }
      if JsLength(password) < MinPasswordLength {
        return Some(Alert("Error", PasswordTooShort, None));
      }
      if password != confirmPassword {
        return Some(Alert("Error", PasswordsDiffer, None));
      }
      loading := true;
      pendingTimers := pendingTimers + 1;
      alert := None;
    }

    /** The timer callback: `loading` comes down and success is reported. */
    method TimerFired() returns (alert: Alert)
      requires pendingTimers > 0
      modifies this`loading, this`pendingTimers
      ensures !loading && pendingTimers == old(pendingTimers) - 1
      ensures alert == Alert("Success", AccountCreated, Some(HomeRoute))
    {
      loading := false;
      pendingTimers := pendingTimers - 1;
      alert := Alert("Success", AccountCreated, Some(HomeRoute));
    }
  }

  /** Submitting a valid form and letting the timer fire ends with `loading` false and success. */
  method SubmitValidForm(screen: RegisterScreen) returns (alert: Alert)
    requires screen.Verdict() == None
    modifies screen`loading, screen`pendingTimers
    ensures !screen.loading && screen.pendingTimers == old(screen.pendingTimers)
    ensures alert == Alert("Success", AccountCreated, Some(HomeRoute))
  {
    var error := screen.HandleRegister();
    assert screen.loading;
    alert := screen.TimerFired();
  }
}
