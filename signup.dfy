/** `frontend/app/signup/page.tsx`: the sign-up page's client-side checks: the password rule and the order in
    which the submit handler rejects a form before asking the server to
    create the account. */
module Signup {
  import opened Common

  predicate HasUpper(p: string) { exists i :: 0 <= i < |p| && 'A' <= p[i] <= 'Z' }
  predicate HasLower(p: string) { exists i :: 0 <= i < |p| && 'a' <= p[i] <= 'z' }
  predicate HasDigit(p: string) { exists i :: 0 <= i < |p| && '0' <= p[i] <= '9' }

  const TooShort := "Password must be at least 8 characters long"
  const NoUpper := "Password must contain at least one uppercase letter"
  const NoLower := "Password must contain at least one lowercase letter"
  const NoDigit := "Password must contain at least one number"
  const Required := "All fields are required"
  const Mismatch := "Passwords do not match"
  const Fallback := "Signup failed. Please try again."

  /** A strong password, as the page defines it. */
  predicate Strong(p: string) { |p| >= 8 && HasUpper(p) && HasLower(p) && HasDigit(p) }

  /** The message of the first rule the password breaks, checked in the order
      length, upper case, lower case, digit; `None` when it breaks none. */
  function ValidatePassword(password: string): (r: Option<string>)
    ensures r == None <==> Strong(password)
    ensures r == Some(TooShort) <==> |password| < 8
    ensures r == Some(NoUpper) <==> |password| >= 8 && !HasUpper(password)
    ensures r == Some(NoLower) <==> |password| >= 8 && HasUpper(password) && !HasLower(password)
    ensures r == Some(NoDigit)
        <==> |password| >= 8 && HasUpper(password) && HasLower(password) && !HasDigit(password)
  {
    if |password| < 8 then Some(TooShort)
    else if !HasUpper(password) then Some(NoUpper)
    else if !HasLower(password) then Some(NoLower)
    else if !HasDigit(password) then Some(NoDigit)
    else None
  }

  /** The letter classes are ASCII only: accented capitals do not count as
      upper case, and accented small letters do not count as lower case. */
  lemma AsciiClassesOnly()
    ensures ValidatePassword("àéîõü123") == Some(NoUpper)
    ensures ValidatePassword("ÀÉÎÕÜAB1") == Some(NoLower)
  {
    var p := "àéîõü123";
    assert forall i :: 0 <= i < |p| ==> !('A' <= p[i] <= 'Z');
    var q := "ÀÉÎÕÜAB1";
    assert 'A' <= q[5] <= 'Z';
    assert forall i :: 0 <= i < |q| ==> !('a' <= q[i] <= 'z');
  }

  datatype FormData = FormData(email: string, fullName: string, password: string, confirmPassword: string)

  /** The error the submit handler shows before contacting the server, or
      `None` when the form passes every check. */
  function SubmitError(form: FormData): (r: Option<string>)
    ensures r == None
        <==> form.email != "" && form.fullName != "" && Strong(form.password)
             && form.password == form.confirmPassword
    ensures (form.email == "" || form.fullName == "" || form.password == "") ==> r == Some(Required)
    ensures form.email != "" && form.fullName != "" && form.password != "" && !Strong(form.password)
        ==> r == ValidatePassword(form.password)
    ensures r == Some(Mismatch) <==> form.email != "" && form.fullName != "" && Strong(form.password)
                                      && form.password != form.confirmPassword
  {
    if form.email == "" || form.fullName == "" || form.password == "" then Some(Required)
    else
      var passwordError := ValidatePassword(form.password);
      if passwordError.Some? then passwordError
      else if form.password != form.confirmPassword then Some(Mismatch)
      else None
  }

  /** The outcome of the server call: success, a failure carrying an error
      message, or a failure thrown without one. */
  datatype SignupOutcome = Succeeded | Failed(message: string) | FailedWithoutMessage

  /** A sign-up request as passed to the server: email, password, full name. */
  datatype SignupRequest = SignupRequest(email: string, password: string, fullName: string)

  /** The page state the submit handler updates. */
  class SignupPage {
    var form: FormData
    var error: string
    var isLoading: bool
    /** Every request sent to the server, oldest first. */
    var requests: seq<SignupRequest>
    /** The page the router was last sent to, if any. */
    var navigatedTo: Option<string>

    constructor()
      ensures form == FormData("", "", "", "")
      ensures error == "" && !isLoading && requests == [] && navigatedTo == None
    {
      form := FormData("", "", "", "");
      error := "";
      isLoading := false;
      requests := [];
      navigatedTo := None;
    }

    /** Submits the current form; `outcome` is what the server call yields if it is made. */
    method HandleSubmit(outcome: SignupOutcome)
      modifies this
      ensures form == old(form)
      ensures SubmitError(form).Some? ==>
        error == SubmitError(form).value && requests == old(requests)
        && navigatedTo == old(navigatedTo) && isLoading == old(isLoading)
      ensures SubmitError(form).None? ==>
        requests == old(requests) + [SignupRequest(form.email, form.password, form.fullName)] && !isLoading
      ensures SubmitError(form).None? && outcome.Succeeded? ==> error == "" && navigatedTo == Some("/")
      ensures SubmitError(form).None? && outcome.Failed? ==> error == outcome.message && navigatedTo == old(navigatedTo)
      ensures SubmitError(form).None? && outcome.FailedWithoutMessage? ==> error == Fallback && navigatedTo == old(navigatedTo)
    {
      error := "";
      if form.email == "" || form.fullName == "" || form.password == "" {
        error := Required;
        return;
      }
      var passwordError := ValidatePassword(form.password);
      if passwordError.Some? {
        error := passwordError.value;
        return;
      }
      if form.password != form.confirmPassword {
        error := Mismatch;
        return;
      }
      isLoading := true;
      requests := requests + [SignupRequest(form.email, form.password, form.fullName)];
      match outcome {
        case Succeeded =>
          navigatedTo := Some("/");
        case Failed(message) =>
          error := message;
        case FailedWithoutMessage =>
          error := Fallback;
      }
      isLoading := false;
    }
  }
}
