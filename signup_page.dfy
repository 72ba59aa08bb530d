/**
 * The signup page: the five-field form, its ordered validation, and the
 * submit handler that calls `signup` only for a valid form.
 */
module SignupPage {
  import opened Wrappers
  import opened JsParseInt
  import opened EmailPattern
  import opened Navigation
  import opened AuthContext

  datatype Field = Name | Email | Age | Password | ConfirmPassword

  datatype FormData = FormData(name: string, email: string, age: string, password: string, confirmPassword: string)

  const FillAllMessage := "Please fill in all fields"
  const EmailMessage := "Please enter a valid email address"
  const AgeMessage := "Please enter a valid age (13-120)"
  const PasswordMessage := "Password must be at least 6 characters"
  const MismatchMessage := "Passwords do not match"
  const LoginPromptMessage := "Registration successful! Please login to continue."

  const EmptyForm := FormData("", "", "", "", "")

  function Get(f: FormData, field: Field): string {
    match field
    case Name => f.name
    case Email => f.email
    case Age => f.age
    case Password => f.password
    case ConfirmPassword => f.confirmPassword
  }

  /** `{...formData, [name]: value}`: the named field takes the value, the others keep theirs. */
  function WithField(f: FormData, field: Field, value: string): (r: FormData)
    ensures Get(r, field) == value
    ensures forall g :: g != field ==> Get(r, g) == Get(f, g)
  {
    match field
    case Name => f.(name := value)
    case Email => f.(email := value)
    case Age => f.(age := value)
    case Password => f.(password := value)
    case ConfirmPassword => f.(confirmPassword := value)
  }

  /** No field is the empty string (a field of spaces counts as filled). */
  predicate AllFilled(f: FormData) {
    f.name != "" && f.email != "" && f.age != "" && f.password != "" && f.confirmPassword != ""
  }

  /** `parseInt(age)` is a number from 13 to 120. */
  predicate AgeInRange(age: string) {
    var n := ParseInt(age);
    n.Some? && 13 <= n.value <= 120
  }

  /** One validation step: whether it passes and the message shown when it does not. */
  datatype Check = Check(passes: bool, message: string)

  /** The steps of the form's validation, in the order the page runs them. */
  function Checks(f: FormData): (cs: seq<Check>)
    ensures |cs| == 5
  {
    [ Check(AllFilled(f), FillAllMessage),
      Check(HasEmailShape(f.email), EmailMessage),
      Check(AgeInRange(f.age), AgeMessage),
      Check(|f.password| >= 6, PasswordMessage),
      Check(f.password == f.confirmPassword, MismatchMessage) ]
  }

  /** The message of the first step that fails, if any. */
  function FirstFailure(cs: seq<Check>): Option<string> {
    if cs == [] then None
    else if !cs[0].passes then Some(cs[0].message)
    else FirstFailure(cs[1..])
  }

  /**
   * `FirstFailure` gives nothing exactly when every step passes, and
   * otherwise the message of a failing step all of whose predecessors pass.
   */
  lemma {:induction false} FirstFailureSpec(cs: seq<Check>)
    ensures FirstFailure(cs).None? <==> forall i :: 0 <= i < |cs| ==> cs[i].passes
    ensures FirstFailure(cs).Some? ==>
      exists i :: 0 <= i < |cs| && !cs[i].passes && FirstFailure(cs).value == cs[i].message
                  && forall j :: 0 <= j < i ==> cs[j].passes
  {
    if cs != [] && cs[0].passes {
      FirstFailureSpec(cs[1..]);
      assert forall i :: 1 <= i < |cs| ==> cs[i] == cs[1..][i - 1];
      if FirstFailure(cs[1..]).Some? {
        var i :| 0 <= i < |cs[1..]| && !cs[1..][i].passes && FirstFailure(cs[1..]).value == cs[1..][i].message
                 && forall j :: 0 <= j < i ==> cs[1..][j].passes;
        assert forall j :: 0 <= j < i + 1 ==> cs[j].passes by {
          forall j | 0 <= j < i + 1 ensures cs[j].passes {
            if j > 0 { assert cs[j] == cs[1..][j - 1]; }
          }
        }
      }
    }
  }

  /**
   * `validateForm`, with the message it shows: `None` when the form is
   * valid. The checks run in order and the first failure wins.
   */
  function Validate(f: FormData): (r: Option<string>)
    ensures r.None? <==>
      AllFilled(f) && HasEmailShape(f.email) && AgeInRange(f.age) && |f.password| >= 6 && f.password == f.confirmPassword
    ensures !AllFilled(f) ==> r == Some(FillAllMessage)
  {
    if !AllFilled(f) then Some(FillAllMessage)
    else if !HasEmailShape(f.email) then Some(EmailMessage)
    else if !AgeInRange(f.age) then Some(AgeMessage)
    else if |f.password| < 6 then Some(PasswordMessage)
    else if f.password != f.confirmPassword then Some(MismatchMessage)
    else None
  }

  /** The chain of conditions in `Validate` is the ordered list of steps, first failure winning. */
  lemma ValidateIsFirstFailure(f: FormData)
    ensures Validate(f) == FirstFailure(Checks(f))
  {
    var cs := Checks(f);
    assert cs[1..][1..] == cs[2..] && cs[2..][1..] == cs[3..] && cs[3..][1..] == cs[4..] && cs[4..][1..] == [];
    assert FirstFailure(cs[4..]) == if cs[4].passes then None else Some(cs[4].message);
    assert FirstFailure(cs[3..]) == if cs[3].passes then FirstFailure(cs[4..]) else Some(cs[3].message);
    assert FirstFailure(cs[2..]) == if cs[2].passes then FirstFailure(cs[3..]) else Some(cs[2].message);
    assert FirstFailure(cs[1..]) == if cs[1].passes then FirstFailure(cs[2..]) else Some(cs[1].message);
  }

  /** A form that passes the earlier steps is judged by the first later one it fails. */
  lemma ValidateExamples(f: FormData)
    requires AllFilled(f) && HasEmailShape(f.email)
    ensures ParseInt(f.age) == Some(12) ==> Validate(f) == Some(AgeMessage)
    ensures ParseInt(f.age) == Some(13) && |f.password| == 6 && f.password == f.confirmPassword ==> Validate(f).None?
    ensures ParseInt(f.age) == Some(120) && |f.password| == 5 ==> Validate(f) == Some(PasswordMessage)
    ensures AgeInRange(f.age) && |f.password| >= 6 && f.password != f.confirmPassword ==> Validate(f) == Some(MismatchMessage)
  {
  }

  class SignupForm {
    var formData: FormData
    var error: string
    var loading: bool

    constructor ()
      ensures formData == EmptyForm && error == "" && !loading
    {
      formData := EmptyForm;
      error := "";
      loading := false;
    }

    /** `handleChange`. */
    method HandleChange(field: Field, value: string)
      modifies this
      ensures formData == WithField(old(formData), field, value)
      ensures error == old(error) && loading == old(loading)
    {
      formData := WithField(formData, field, value);
    }

    /**
     * The part of `handleSubmit` before the `signup` call: clear the error,
     * validate, and either show the failure or start loading.
     */
    method BeginSubmit() returns (proceed: bool)
      modifies this
      ensures formData == old(formData)
      ensures proceed <==> Validate(formData).None?
      ensures proceed ==> error == "" && loading
      ensures !proceed ==> Some(error) == Validate(formData) && loading == old(loading)
    {
      error := "";
      var failure := Validate(formData);
      if failure.Some? {
        error := failure.value;
        proceed := false;
        return;
      }
      loading := true;
      proceed := true;
    }

    /** The part of `handleSubmit` after `signup` returned. */
    method CompleteSubmit(result: AuthResult) returns (navigation: Option<Navigation>)
      modifies this
      ensures formData == old(formData) && !loading
      ensures result.Succeeded? ==> navigation == Some(Navigate("/login", Some(LoginPromptMessage))) && error == old(error)
      ensures result.Failed? ==> navigation.None? && error == result.error
    {
      loading := false;
      if result.Succeeded? {
        navigation := Some(Navigate("/login", Some(LoginPromptMessage)));
      } else {
        error := result.error;
        navigation := None;
      }
    }

    /**
     * `handleSubmit` as a whole, against the session `auth` and the
     * server's `reply`: an invalid form posts nothing; a valid one posts the
     * registration and goes to the login page exactly when it was accepted.
     */
    method Submit(auth: AuthProvider, reply: RegisterReply) returns (request: Option<RegisterRequest>, navigation: Option<Navigation>)
      modifies this
      ensures formData == old(formData)
      ensures Validate(formData).Some? ==>
        request.None? && navigation.None? && Some(error) == Validate(formData) && loading == old(loading)
      ensures Validate(formData).None? ==>
        request == Some(RegisterRequest(formData.email, formData.password, formData.name, ParseInt(formData.age)))
        && !loading
        && (navigation.Some? <==> reply.Registered?)
        && (reply.Registered? ==> navigation == Some(Navigate("/login", Some(LoginPromptMessage))))
        && (reply.Registered? ==> error == "")
        && (reply.RegisterRejected? ==> error == MessageOr(reply.message, RegistrationFailedMessage))
    {
      var proceed := BeginSubmit();
      if !proceed {
        request, navigation := None, None;
        return;
      }
      var sent, result := auth.Signup(formData.email, formData.password, formData.name, formData.age, reply);
      request := Some(sent);
      navigation := CompleteSubmit(result);
    }
  }
}
