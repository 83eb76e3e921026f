/** The sign-up page (src/pages/RegisterPage.tsx): field-by-field validation into a map
    of error messages, and the validate-then-register submit. */
module RegisterPageView {
  import opened Wrappers
  import opened Text
  import opened AuthContext

  const FirstNameRequired := "First name is required"
  const LastNameRequired := "Last name is required"
  const EmailRequired := "Email is required"
  const EmailInvalid := "Email is invalid"
  const PasswordRequired := "Password is required"
  const PasswordTooShort := "Password must be at least 6 characters"
  const PasswordsDiffer := "Passwords do not match"
  const RegistrationFailed := "Registration failed. Please try again."
  const MinPasswordLength := 6

  /** The five inputs of the form. */
  datatype RegisterForm = RegisterForm(firstName: string, lastName: string, email: string, password: string, confirmPassword: string)

  datatype Field = FirstName | LastName | Email | Password | ConfirmPassword

  /** The keys of the error map: an input's `name`, or `form` for the page-level message. */
  datatype ErrorKey = On(field: Field) | FormKey

  /** `{ ...prev, [name]: value }`: the form with one input changed. */
  function WithField(form: RegisterForm, field: Field, value: string): (r: RegisterForm)
    ensures Get(r, field) == value
    ensures forall g :: g != field ==> Get(r, g) == Get(form, g)
  {
    match field
    case FirstName => form.(firstName := value)
    case LastName => form.(lastName := value)
    case Email => form.(email := value)
    case Password => form.(password := value)
    case ConfirmPassword => form.(confirmPassword := value)
  }

  /** The value of one input. */
  function Get(form: RegisterForm, field: Field): string {
    match field
    case FirstName => form.firstName
    case LastName => form.lastName
    case Email => form.email
    case Password => form.password
    case ConfirmPassword => form.confirmPassword
  }

  /** The pattern `\S@\S+\.\S` matches `s` with its `@` at index `at` and its `.` at
      index `dot`. */
  predicate EmailShapeAt(s: string, at: int, dot: int) {
    1 <= at && at + 1 < dot && dot + 1 < |s| &&
    s[at] == '@' && s[dot] == '.' && !IsSpace(s[at - 1]) && !IsSpace(s[dot + 1]) &&
    forall k :: at < k < dot ==> !IsSpace(s[k])
  }

  /** `/\S+@\S+\.\S+/.test(s)`: somewhere in `s`, a non-space character, an `@`, one or more
      non-space characters, a `.` and a non-space character, in a row. (A longer run of
      non-space characters on either end contains a one-character run.) */
  predicate LooksLikeEmail(s: string) {
    exists at, dot :: 0 <= at < |s| && 0 <= dot < |s| && EmailShapeAt(s, at, dot)
  }

  lemma EmailExamples()
    ensures LooksLikeEmail("jane@shop.com")
    ensures !LooksLikeEmail("jane@shop")
    ensures !LooksLikeEmail("@shop.com")
    ensures !LooksLikeEmail("jane @shop.com")
  {
    assert EmailShapeAt("jane@shop.com", 4, 9);
    var s := "jane @shop.com";
    forall at, dot | 0 <= at < |s| && 0 <= dot < |s|
      ensures !EmailShapeAt(s, at, dot)
    {
      if s[at] == '@' {
        assert at == 5 && s[at - 1] == ' ';
      }
    }
  }

  /** An address that passes has an `@` with a `.` somewhere after it, and does not start
      with the `@`. */
  lemma {:induction false} EmailHasAtThenDot(s: string)
    requires LooksLikeEmail(s)
    ensures exists at, dot :: 0 < at < dot < |s| - 1 && s[at] == '@' && s[dot] == '.'
  {
    var at, dot :| 0 <= at < |s| && 0 <= dot < |s| && EmailShapeAt(s, at, dot);
    assert 0 < at < dot < |s| - 1 && s[at] == '@' && s[dot] == '.';
  }

  /** The forms `validateForm` accepts. */
  predicate Submittable(form: RegisterForm) {
    !IsBlank(form.firstName) && !IsBlank(form.lastName) && !IsBlank(form.email) && LooksLikeEmail(form.email) &&
    Utf16Length(form.password) >= MinPasswordLength && form.password == form.confirmPassword
  }

  /** The map files `message` under `key` exactly when `failed` holds. */
  predicate Reports(errors: map<ErrorKey, string>, key: ErrorKey, failed: bool, message: string) {
    (key in errors <==> failed) && (key in errors ==> errors[key] == message)
  }

  /** `errors` files, for each field of `form`, exactly the message its rule calls for, at
      most one per field, and no page-level message. */
  predicate FiledFor(errors: map<ErrorKey, string>, form: RegisterForm) {
    Reports(errors, On(FirstName), IsBlank(form.firstName), FirstNameRequired) &&
    Reports(errors, On(LastName), IsBlank(form.lastName), LastNameRequired) &&
    Reports(errors, On(Email), IsBlank(form.email) || !LooksLikeEmail(form.email),
      if IsBlank(form.email) then EmailRequired else EmailInvalid) &&
    Reports(errors, On(Password), Utf16Length(form.password) < MinPasswordLength,
      if form.password == "" then PasswordRequired else PasswordTooShort) &&
    Reports(errors, On(ConfirmPassword), form.password != form.confirmPassword, PasswordsDiffer) &&
    FormKey !in errors
  }

  /** The messages of a form are determined by the form: at most one map is filed for it. */
  lemma FiledForIsUnique(e1: map<ErrorKey, string>, e2: map<ErrorKey, string>, form: RegisterForm)
    requires FiledFor(e1, form) && FiledFor(e2, form)
    ensures e1 == e2
  {
    forall k | k in e1 || k in e2
      ensures k in e1 && k in e2 && e1[k] == e2[k]
    {
      assert k != FormKey;
      match k.field
      case FirstName =>
      case LastName =>
      case Email =>
      case Password =>
      case ConfirmPassword =>
    }
    assert e1.Keys == e2.Keys;
  }

  /** `validateForm`: fill a fresh map of messages field by field; the form is valid
      exactly when no message was filed. */
  method ValidateForm(form: RegisterForm) returns (errors: map<ErrorKey, string>, valid: bool)
    ensures FiledFor(errors, form)
    ensures valid <==> errors == map[]
    ensures valid <==> Submittable(form)
  {
    errors := map[];
    var blankFirst := TrimsToEmpty(form.firstName);
    if blankFirst {
      errors := errors[On(FirstName) := FirstNameRequired];
    }
    var blankLast := TrimsToEmpty(form.lastName);
    if blankLast {
      errors := errors[On(LastName) := LastNameRequired];
    }
    var blankEmail := TrimsToEmpty(form.email);
    if blankEmail {
      errors := errors[On(Email) := EmailRequired];
    } else if !LooksLikeEmail(form.email) {
      errors := errors[On(Email) := EmailInvalid];
    }
    if form.password == "" {
      errors := errors[On(Password) := PasswordRequired];
    } else if Utf16Length(form.password) < MinPasswordLength {
      errors := errors[On(Password) := PasswordTooShort];
    }
    if form.password != form.confirmPassword {
      errors := errors[On(ConfirmPassword) := PasswordsDiffer];
    }
    valid := errors.Keys == {};
    assert valid ==> errors == map[];
  }

  /** What a valid form registers: its names and email. */
  function DraftOf(form: RegisterForm): UserDraft {
    UserDraft(Some(form.firstName), Some(form.lastName), Some(form.email))
  }

  /** The form's state, the page's messages and where it has sent the browser. */
  class RegisterPage {
    var formData: RegisterForm
    var errors: map<ErrorKey, string>
    var isLoading: bool
    /** The route the page last navigated to, if any. */
    var route: Option<string>

    constructor ()
      ensures formData == RegisterForm("", "", "", "", "") && errors == map[] && !isLoading && route == None
    {
      formData := RegisterForm("", "", "", "", "");
      errors := map[];
      isLoading := false;
      route := None;
    }

    /** The redirect effect: a signed-in visitor is sent to `/home`. */
    method RedirectIfSignedIn(auth: AuthProvider)
      modifies this`route
      ensures route == if auth.IsAuthenticated() then Some("/home") else old(route)
    {
      if auth.IsAuthenticated() {
        route := Some("/home");
      }
    }

    /** `handleChange`: set the field, and blank its message if it had a non-empty one. */
    method HandleChange(field: Field, value: string)
      modifies this
      ensures formData == WithField(old(formData), field, value)
      ensures errors == if On(field) in old(errors) && old(errors)[On(field)] != ""
        then old(errors)[On(field) := ""] else old(errors)
      ensures isLoading == old(isLoading) && route == old(route)
    {
      formData := WithField(formData, field, value);
      if On(field) in errors && errors[On(field)] != "" {
        errors := errors[On(field) := ""];
      }
    }

    /** `handleSubmit`: validate; when valid, register the names, email and password and
        go to the login page, or file the one form-level message when registering fails. */
    method HandleSubmit(auth: AuthProvider, id: string) returns (outcome: Option<Outcome>)
      modifies this, auth
      ensures formData == old(formData)
      ensures outcome.None? <==> !Submittable(formData)
      ensures outcome.None? ==>
        auth.users == old(auth.users) && auth.user == old(auth.user) && route == old(route) && isLoading == old(isLoading)
      ensures outcome.None? ==> FiledFor(errors, formData) && errors != map[]
      ensures auth.storage == old(auth.storage)
      ensures outcome.Some? ==>
        !isLoading && auth.user == old(auth.user) && (outcome.value.Fail? <==> EmailTaken(old(auth.users), Some(formData.email)))
      ensures outcome == Some(Pass) ==>
        route == Some("/login") && errors == map[] &&
        auth.users == old(auth.users) + [NewAccount(DraftOf(formData), formData.password, id)] &&
        FindCredentials(auth.users, formData.email, formData.password) == Some(|old(auth.users)|)
      ensures outcome.Some? && outcome.value.Fail? ==>
        errors == map[FormKey := RegistrationFailed] && auth.users == old(auth.users) && route == old(route)
    {
      var found, valid := ValidateForm(formData);
      errors := found;
      if !valid {
        return None;
      }
      isLoading := true;
      var result := auth.Register(DraftOf(formData), formData.password, id);
      if result.Pass? {
        LoginFindsRegistered(old(auth.users), DraftOf(formData), formData.password, id);
        route := Some("/login");
      } else {
        errors := map[FormKey := RegistrationFailed];
      }
      isLoading := false;
      outcome := Some(result);
    }
  }
}
