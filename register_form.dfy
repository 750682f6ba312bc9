/** The registration form of client/src/pages/Register.js: `validateForm`,
    which records one error per failing field, and the error clearing of
    `handleInputChange`. */
module RegisterForm {
  import opened Common

  datatype Form = Form(
    firstName: string,
    lastName: string,
    email: string,
    password: string,
    confirmPassword: string,
    nativeLanguage: string,
    learningLanguage: string,
    level: string)

  const MinPasswordLength: nat := 6

  const FirstNameRequired: string := "First name is required"
  const LastNameRequired: string := "Last name is required"
  const EmailRequired: string := "Email is required"
  const EmailInvalid: string := "Email is invalid"
  const PasswordRequired: string := "Password is required"
  const PasswordTooShort: string := "Password must be at least 6 characters"
  const PasswordsDiffer: string := "Passwords do not match"
  const SameLanguage: string := "Learning language must be different from native language"

  /** `/\S+@\S+\.\S+/.test(s)`: somewhere in `s` an `@` follows a non-space
      character and is followed by non-space characters, a dot, and one more
      non-space character. The pattern is not anchored. */
  predicate LooksLikeEmail(s: string)
  {
    exists at, dot :: 0 < at < |s| && 0 < dot < |s| && EmailShapeAt(s, at, dot)
  }

  /** The regular expression matches with its `@` at `at` and its dot at
      `dot`. */
  predicate EmailShapeAt(s: string, at: int, dot: int)
  {
    && 0 < at && at + 1 < dot && dot + 1 < |s|
    && s[at] == '@' && s[dot] == '.' && !IsJsSpace(s[at - 1]) && !IsJsSpace(s[dot + 1])
    && (forall m :: at < m < dot ==> !IsJsSpace(s[m]))
  }

  lemma EmailExamples()
    ensures LooksLikeEmail("a@b.c")
    ensures !LooksLikeEmail("a@b")
    ensures !LooksLikeEmail("@b.c")
    ensures LooksLikeEmail("not an e@mail.address")
  {
    assert EmailShapeAt("a@b.c", 1, 3);
    var s := "not an e@mail.address";
    assert EmailShapeAt(s, 8, 13);
  }

  /** The errors `validateForm` records for a form: one message for each
      failing field, and no other entry. */
  predicate ErrorsFor(form: Form, errors: map<string, string>)
  {
    && errors.Keys <= {"firstName", "lastName", "email", "password", "confirmPassword", "learningLanguage"}
    && ("firstName" in errors <==> BlankAfterTrim(form.firstName))
    && ("firstName" in errors ==> errors["firstName"] == FirstNameRequired)
    && ("lastName" in errors <==> BlankAfterTrim(form.lastName))
    && ("lastName" in errors ==> errors["lastName"] == LastNameRequired)
    && ("email" in errors <==> BlankAfterTrim(form.email) || !LooksLikeEmail(form.email))
    && ("email" in errors ==>
          errors["email"] == (if BlankAfterTrim(form.email) then EmailRequired else EmailInvalid))
    && ("password" in errors <==> |form.password| < MinPasswordLength)
    && ("password" in errors ==>
          errors["password"] == (if form.password == "" then PasswordRequired else PasswordTooShort))
    && ("confirmPassword" in errors <==> form.password != form.confirmPassword)
    && ("confirmPassword" in errors ==> errors["confirmPassword"] == PasswordsDiffer)
    && ("learningLanguage" in errors <==> form.nativeLanguage == form.learningLanguage)
    && ("learningLanguage" in errors ==> errors["learningLanguage"] == SameLanguage)
  }

  /** The description fixes the map: a form has one set of errors. */
  lemma ErrorsForDetermined(form: Form, e1: map<string, string>, e2: map<string, string>)
    requires ErrorsFor(form, e1) && ErrorsFor(form, e2)
    ensures e1 == e2
  {
    assert e1.Keys == e2.Keys;
    forall k | k in e1 ensures e1[k] == e2[k] {
      assert k in {"firstName", "lastName", "email", "password", "confirmPassword", "learningLanguage"};
    }
  }

  /** `validateForm`'s checks, one error message per failing field. */
  method CollectErrors(form: Form) returns (errors: map<string, string>)
    ensures ErrorsFor(form, errors)
  {
    errors := map[];
    if BlankAfterTrim(form.firstName) {
      errors := errors["firstName" := FirstNameRequired];
    }
    if BlankAfterTrim(form.lastName) {
      errors := errors["lastName" := LastNameRequired];
    }
    if BlankAfterTrim(form.email) {
      errors := errors["email" := EmailRequired];
    } else if !LooksLikeEmail(form.email) {
      errors := errors["email" := EmailInvalid];
    }
    if form.password == "" {
      errors := errors["password" := PasswordRequired];
    } else if |form.password| < MinPasswordLength {
      errors := errors["password" := PasswordTooShort];
    }
    if form.password != form.confirmPassword {
      errors := errors["confirmPassword" := PasswordsDiffer];
    }
    if form.nativeLanguage == form.learningLanguage {
      errors := errors["learningLanguage" := SameLanguage];
    }
  }

  /** A form passes exactly when every check does. */
  predicate Acceptable(form: Form)
  {
    && !BlankAfterTrim(form.firstName) && !BlankAfterTrim(form.lastName)
    && !BlankAfterTrim(form.email) && LooksLikeEmail(form.email)
    && |form.password| >= MinPasswordLength && form.password == form.confirmPassword
    && form.nativeLanguage != form.learningLanguage
  }

  /** The `name` attributes of the form's eight inputs. */
  const InputNames: set<string> := {"firstName", "lastName", "email", "password", "confirmPassword",
                                    "nativeLanguage", "learningLanguage", "level"}

  /** The form a text input changes: `{ ...prev, [name]: value }` for the
      eight named inputs. */
  function WithField(form: Form, name: string, value: string): (r: Form)
    ensures name == "firstName" ==> r == form.(firstName := value)
    ensures name == "lastName" ==> r == form.(lastName := value)
    ensures name == "email" ==> r == form.(email := value)
    ensures name == "password" ==> r == form.(password := value)
    ensures name == "confirmPassword" ==> r == form.(confirmPassword := value)
    ensures name == "nativeLanguage" ==> r == form.(nativeLanguage := value)
    ensures name == "learningLanguage" ==> r == form.(learningLanguage := value)
    ensures name == "level" ==> r == form.(level := value)
    ensures name !in InputNames ==> r == form
  {
    if name == "firstName" then form.(firstName := value)
    else if name == "lastName" then form.(lastName := value)
    else if name == "email" then form.(email := value)
    else if name == "password" then form.(password := value)
    else if name == "confirmPassword" then form.(confirmPassword := value)
    else if name == "nativeLanguage" then form.(nativeLanguage := value)
    else if name == "learningLanguage" then form.(learningLanguage := value)
    else if name == "level" then form.(level := value)
    else form
  }

  /** The page's form state. */
  class RegisterPage {
    var formData: Form
    var formErrors: map<string, string>

    /** The form as the page first shows it. */
    constructor ()
      ensures formData == Form("", "", "", "", "", "English", "Spanish", "beginner")
      ensures formErrors == map[]
    {
      formData := Form("", "", "", "", "", "English", "Spanish", "beginner");
      formErrors := map[];
    }

    /** `handleInputChange`: sets the field and clears its error if one is
        shown, leaving every other error as it was. */
    method HandleInputChange(name: string, value: string)
      modifies this
      ensures formData == WithField(old(formData), name, value)
      ensures name in old(formErrors) && old(formErrors)[name] != "" ==> formErrors == old(formErrors)[name := ""]
      ensures !(name in old(formErrors) && old(formErrors)[name] != "") ==> formErrors == old(formErrors)
    {
      formData := WithField(formData, name, value);
      if name in formErrors && formErrors[name] != "" {
        formErrors := formErrors[name := ""];
      }
    }

    /** `validateForm`: records the errors and answers whether there were
        none. */
    method ValidateForm() returns (ok: bool)
      modifies this`formErrors
      ensures ok <==> Acceptable(formData)
      ensures ok <==> formErrors == map[]
      ensures ErrorsFor(formData, formErrors)
    {
      var errors := CollectErrors(formData);
      formErrors := errors;
      ok := |errors.Keys| == 0;
      if !ok {
        assert errors != map[];
        NonEmptyKeys(errors);
      }
    }
  }

  lemma NonEmptyKeys(m: map<string, string>)
    requires m != map[]
    ensures |m.Keys| > 0
  {
    var k :| k in m;
    assert k in m.Keys;
  }
}
