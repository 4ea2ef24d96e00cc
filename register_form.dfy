/**
 * The registration page: field-by-field validation into an errors
 * dictionary, the change handler and the submit gate.
 */
module RegisterForm {
  import opened Text
  import opened Outcomes
  import LoginForm

  /** The six inputs of the form. */
  datatype Field = FullName | Email | Phone | Password | ConfirmPassword | Role

  /** The input's `name` attribute, which is also its key in the form state. */
  function Name(f: Field): (n: string)
    ensures n != ""
  {
    match f
    case FullName => "fullName"
    case Email => "email"
    case Phone => "phone"
    case Password => "password"
    case ConfirmPassword => "confirmPassword"
    case Role => "role"
  }

  /** A form state that holds every input (extra keys may be present). */
  predicate WellFormed(form: map<string, string>) {
    forall f: Field :: Name(f) in form
  }

  /** The password rule: `length < 8 || !/[A-Z]/.test(p) || !/[0-9]/.test(p)`, length in UTF-16 units. */
  predicate WeakForRegistration(pw: string) {
    Utf16Length(pw) < 8 || !(exists k :: 0 <= k < |pw| && IsUpper(pw[k])) || !(exists k :: 0 <= k < |pw| && IsDigit(pw[k]))
  }

  /** Whether the rule for one field fails. */
  predicate Fails(form: map<string, string>, f: Field)
    requires WellFormed(form)
  {
    match f
    case FullName => Trim(form[Name(FullName)]) == ""
    case Email => '@' !in form[Name(Email)] || !LoginForm.IsEmail(form[Name(Email)])
    case Phone => Trim(form[Name(Phone)]) == ""
    case Password => WeakForRegistration(form[Name(Password)])
    case ConfirmPassword => form[Name(ConfirmPassword)] != form[Name(Password)]
    case Role => form[Name(Role)] == ""
  }

  /** The message shown under a failing field. */
  function Message(f: Field): string {
    match f
    case FullName => "Full name is required"
    case Email => "Valid email is required"
    case Phone => "Phone number is required"
    case Password => "Password must be at least 8 characters, include a number and uppercase letter"
    case ConfirmPassword => "Passwords do not match"
    case Role => "Please select a role"
  }

  /** `validate`: one entry per failing rule, keyed by the field it is about. */
  function Validate(form: map<string, string>): (errs: map<Field, string>)
    requires WellFormed(form)
    ensures FullName in errs <==> Trim(form[Name(FullName)]) == ""
    ensures Email in errs <==> '@' !in form[Name(Email)] || !LoginForm.IsEmail(form[Name(Email)])
    ensures Phone in errs <==> Trim(form[Name(Phone)]) == ""
    ensures Password in errs <==> WeakForRegistration(form[Name(Password)])
    ensures ConfirmPassword in errs <==> form[Name(ConfirmPassword)] != form[Name(Password)]
    ensures Role in errs <==> form[Name(Role)] == ""
    ensures forall f :: f in errs ==> errs[f] == Message(f)
  {
    map f: Field | Fails(form, f) :: Message(f)
  }

  /** The separate '@' test adds nothing: the email error is exactly "the pattern does not match". */
  lemma EmailErrorIffNoMatch(form: map<string, string>)
    requires WellFormed(form)
    ensures Email in Validate(form) <==> !LoginForm.IsEmail(form[Name(Email)])
  {
    if LoginForm.IsEmail(form[Name(Email)]) {
      LoginForm.IsEmailHasAt(form[Name(Email)]);
    }
  }

  /**
   * Length counts UTF-16 units: "Aa1" and three emoji is six characters
   * but nine units, long enough for the rule.
   */
  lemma SurrogatePairsCount()
    ensures var pw := "Aa1\U{1F600}\U{1F600}\U{1F600}"; |pw| == 6 && Utf16Length(pw) == 9 && !WeakForRegistration(pw)
  {
    var pw := "Aa1\U{1F600}\U{1F600}\U{1F600}";
    assert IsUpper(pw[0]) && IsDigit(pw[2]);
    assert pw[1..] == "a1\U{1F600}\U{1F600}\U{1F600}";
  }

  /** A form with every field filled in correctly produces no errors at all. */
  lemma ValidFormHasNoErrors(form: map<string, string>)
    requires WellFormed(form)
    requires Trim(form[Name(FullName)]) != "" && Trim(form[Name(Phone)]) != "" && form[Name(Role)] != ""
    requires LoginForm.IsEmail(form[Name(Email)]) && !WeakForRegistration(form[Name(Password)])
    requires form[Name(ConfirmPassword)] == form[Name(Password)]
    ensures Validate(form) == map[]
  {
    EmailErrorIffNoMatch(form);
  }

  /** What a submit led to. */
  datatype SubmitResult = Invalid | Failed | Registered(navigateTo: string)

  class RegisterPage {
    var form: map<string, string>
    var errors: map<Field, string>
    var loading: bool

    constructor ()
      ensures form == map["fullName" := "", "email" := "", "phone" := "", "password" := "",
                          "confirmPassword" := "", "role" := ""]
      ensures errors == map[] && !loading
    {
      form := map["fullName" := "", "email" := "", "phone" := "", "password" := "",
                  "confirmPassword" := "", "role" := ""];
      errors := map[];
      loading := false;
    }

    /** `handleChange`: exactly the named field takes the new value. */
    method HandleChange(name: string, value: string)
      requires WellFormed(form)
      modifies this
      ensures form == old(form)[name := value]
      ensures WellFormed(form)
      ensures errors == old(errors) && loading == old(loading)
    {
      form := form[name := value];
    }

    /**
     * `handleSubmit`: with any validation error the errors are stored and
     * nothing is posted; otherwise the form is posted and, on success, the
     * page goes to /login. Old errors are not cleared on success.
     */
    method HandleSubmit(response: Outcome<()>) returns (res: SubmitResult)
      requires WellFormed(form)
      modifies this
      ensures form == old(form)
      ensures res == Invalid <==> Validate(old(form)) != map[]
      ensures res == Invalid ==> errors == Validate(old(form)) && loading == old(loading)
      ensures res != Invalid ==> errors == old(errors) && !loading
      ensures res != Invalid ==> (res == Failed <==> response.Failure?)
      ensures res.Registered? ==> res.navigateTo == "/login"
    {
      var validationErrors := Validate(form);
      if |validationErrors| > 0 {
        errors := validationErrors;
        return Invalid;
      }
      loading := true;
      if response.Success? {
        res := Registered("/login");
      } else {
        res := Failed;
      }
      loading := false;
    }
  }
}
