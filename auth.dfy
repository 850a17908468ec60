/**
 * The sign-up / sign-in dialog: its field validation (two formulations of
 * the same rules, one that records a message per field and one that only
 * enables the submit button), field edits that clear a field's message,
 * and the switch between the two modes.
 */
module Auth {
  import opened Text
  import opened Wrappers

  datatype Mode = SignUp | SignIn

  datatype Field = Username | Email | Password

  datatype Credentials = Credentials(username: string, email: string, password: string)

  /** One optional message per field; `None` is an absent (`undefined`) entry. */
  datatype FormErrors = FormErrors(username: Option<string>, email: Option<string>, password: Option<string>)

  const NoErrors: FormErrors := FormErrors(None, None, None)

  const UsernameRequired: string := "Username is required"
  const UsernameTooShort: string := "Username must be at least 3 characters"
  const EmailRequired: string := "Email is required"
  const EmailTooShort: string := "Email must be at least 13 characters"
  const EmailInvalid: string := "Please enter a valid email address"
  const PasswordRequired: string := "Password is required"
  const PasswordTooShort: string := "Password must be at least 6 characters"

  /** The shortest username, email and password the dialog accepts. */
  const MinUsername: int := 3
  const MinEmail: int := 13
  const MinPassword: int := 6

  /** A run of characters matched by the regular-expression class `[^\s@]`. */
  predicate Plain(s: string)
  {
    forall k :: 0 <= k < |s| ==> !IsSpace(s[k]) && s[k] != '@'
  }

  /**
   * The regular expression `^[^\s@]+@[^\s@]+\.[^\s@]+$`: a non-empty local
   * part, an '@', a non-empty host part, a '.', and a non-empty last part,
   * none of them holding whitespace or '@'.
   */
  predicate EmailPattern(s: string)
  {
    exists i, j :: 0 < i && i + 1 < j < |s| - 1 && s[i] == '@' && s[j] == '.' &&
      Plain(s[..i]) && Plain(s[i + 1..j]) && Plain(s[j + 1..])
  }

  /** `validateForm`'s username rule; sign-in never checks the username. */
  function UsernameError(mode: Mode, username: string): Option<string>
  {
    if mode == SignIn then None
    else if Trim(username) == "" then Some(UsernameRequired)
    else if |Trim(username)| < MinUsername then Some(UsernameTooShort)
    else None
  }

  /** `validateForm`'s email rule: blank, then too short (untrimmed), then malformed. */
  function EmailError(email: string): Option<string>
  {
    if Trim(email) == "" then Some(EmailRequired)
    else if |email| < MinEmail then Some(EmailTooShort)
    else if !EmailPattern(email) then Some(EmailInvalid)
    else None
  }

  /** `validateForm`'s password rule. */
  function PasswordError(password: string): Option<string>
  {
    if password == "" then Some(PasswordRequired)
    else if |password| < MinPassword then Some(PasswordTooShort)
    else None
  }

  /** The message table `validateForm` builds, field by field. */
  function Validation(mode: Mode, form: Credentials): FormErrors
  {
    FormErrors(UsernameError(mode, form.username), EmailError(form.email), PasswordError(form.password))
  }

  /** `isFormValid`, which enables the submit button. */
  predicate IsFormValid(mode: Mode, form: Credentials)
  {
    if mode == SignUp then
      |Trim(form.username)| >= MinUsername && |form.email| >= MinEmail && EmailPattern(form.email) && |form.password| >= MinPassword
    else
      |form.email| >= MinEmail && EmailPattern(form.email) && |form.password| >= MinPassword
  }

  /** The username message: "required" exactly for a blank sign-up username, "too short" for 1 or 2 visible characters. */
  lemma UsernameRule(mode: Mode, username: string)
    ensures UsernameError(mode, username) == Some(UsernameRequired) <==> mode == SignUp && IsBlank(username)
    ensures UsernameError(mode, username) == Some(UsernameTooShort) <==>
              mode == SignUp && !IsBlank(username) && |Trim(username)| < MinUsername
    ensures UsernameError(mode, username) == None <==> mode == SignIn || |Trim(username)| >= MinUsername
  {
    TrimEmptyIffBlank(username);
  }

  /** Only the first failing email check is reported. */
  lemma EmailRule(email: string)
    ensures EmailError(email) == Some(EmailRequired) <==> IsBlank(email)
    ensures EmailError(email) == Some(EmailTooShort) <==> !IsBlank(email) && |email| < MinEmail
    ensures EmailError(email) == Some(EmailInvalid) <==> !IsBlank(email) && |email| >= MinEmail && !EmailPattern(email)
    ensures EmailError(email) == None <==> |email| >= MinEmail && EmailPattern(email)
  {
    TrimEmptyIffBlank(email);
    if EmailPattern(email) {
      EmailPatternNotBlank(email);
    }
  }

  /** The password message depends on the raw length only. */
  lemma PasswordRule(password: string)
    ensures PasswordError(password) == Some(PasswordRequired) <==> |password| == 0
    ensures PasswordError(password) == Some(PasswordTooShort) <==> 0 < |password| < MinPassword
    ensures PasswordError(password) == None <==> |password| >= MinPassword
  {
  }

  /** An address the pattern accepts starts with a visible character, so it is never blank. */
  lemma EmailPatternNotBlank(email: string)
    requires EmailPattern(email)
    ensures Trim(email) != "" && !IsBlank(email)
  {
    var i, j :| 0 < i && i + 1 < j < |email| - 1 && email[i] == '@' && email[j] == '.' &&
      Plain(email[..i]) && Plain(email[i + 1..j]) && Plain(email[j + 1..]);
    assert email[..i][0] == email[0];
    TrimNonEmptyWhenHeadVisible(email);
    TrimEmptyIffBlank(email);
  }

  /** The two formulations agree: `validateForm` records no message exactly when `isFormValid` holds. */
  lemma ValidationAgreesWithIsFormValid(mode: Mode, form: Credentials)
    ensures Validation(mode, form) == NoErrors <==> IsFormValid(mode, form)
  {
    UsernameRule(mode, form.username);
    EmailRule(form.email);
    PasswordRule(form.password);
  }

  /** Signing in never looks at the username: any username gives the same messages and verdict. */
  lemma SignInIgnoresUsername(form: Credentials, username: string)
    ensures Validation(SignIn, form.(username := username)) == Validation(SignIn, form)
    ensures IsFormValid(SignIn, form.(username := username)) <==> IsFormValid(SignIn, form)
  {
  }

  /** Signing up asks for strictly more than signing in. */
  lemma SignUpStricter(form: Credentials)
    ensures IsFormValid(SignUp, form) ==> IsFormValid(SignIn, form)
    ensures IsFormValid(SignIn, form) && |Trim(form.username)| < MinUsername ==> !IsFormValid(SignUp, form)
  {
  }

  /** A field's value. */
  function Value(form: Credentials, f: Field): string
  {
    match f
    case Username => form.username
    case Email => form.email
    case Password => form.password
  }

  /** A field's message. */
  function ErrorOf(errors: FormErrors, f: Field): Option<string>
  {
    match f
    case Username => errors.username
    case Email => errors.email
    case Password => errors.password
  }

  /** `{ ...prev, [field]: value }` on the credentials. */
  function WithValue(form: Credentials, f: Field, v: string): (r: Credentials)
    ensures Value(r, f) == v
    ensures forall g :: g != f ==> Value(r, g) == Value(form, g)
  {
    match f
    case Username => form.(username := v)
    case Email => form.(email := v)
    case Password => form.(password := v)
  }

  /** `{ ...prev, [field]: undefined }` on the messages. */
  function Cleared(errors: FormErrors, f: Field): (r: FormErrors)
    ensures ErrorOf(r, f) == None
    ensures forall g :: g != f ==> ErrorOf(r, g) == ErrorOf(errors, g)
  {
    match f
    case Username => errors.(username := None)
    case Email => errors.(email := None)
    case Password => errors.(password := None)
  }

  /** A message is shown (JavaScript-truthy) when present and non-empty. */
  predicate Shown(e: Option<string>)
  {
    e.Some? && e.value != ""
  }

  /** The sign-up / sign-in toggle. */
  function Switched(mode: Mode): (m: Mode)
    ensures m != mode
  {
    if mode == SignUp then SignIn else SignUp
  }

  /** Toggling twice returns to the starting mode. */
  lemma SwitchedInvolution(mode: Mode)
    ensures Switched(Switched(mode)) == mode
  {
  }

  /** The record kept for the signed-in user; a missing username is stored as "User". */
  datatype StoredUser = StoredUser(username: string, email: string)

  /** What a successful submission produces: the toast text and the stored record. */
  datatype SignedIn = SignedIn(toast: string, user: StoredUser)

  function Welcome(mode: Mode): string
  {
    if mode == SignUp then "Account created successfully!" else "Welcome back!"
  }

  class AuthModal {
    var mode: Mode
    var form: Credentials
    var errors: FormErrors

    constructor ()
      ensures mode == SignUp && form == Credentials("", "", "") && errors == NoErrors
    {
      mode := SignUp;
      form := Credentials("", "", "");
      errors := NoErrors;
    }

    /** `validateForm`: record one message per failing field and report whether none failed. */
    method ValidateForm() returns (ok: bool)
      modifies this`errors
      ensures errors == Validation(mode, form)
      ensures ok <==> errors == NoErrors
      ensures ok <==> IsFormValid(mode, form)
    {
      var newErrors := NoErrors;
      if mode == SignUp {
        if Trim(form.username) == "" {
          newErrors := newErrors.(username := Some(UsernameRequired));
        } else if |Trim(form.username)| < MinUsername {
          newErrors := newErrors.(username := Some(UsernameTooShort));
        }
      }
      assert newErrors == NoErrors.(username := UsernameError(mode, form.username));
      if Trim(form.email) == "" {
        newErrors := newErrors.(email := Some(EmailRequired));
      } else if |form.email| < MinEmail {
        newErrors := newErrors.(email := Some(EmailTooShort));
      } else if !EmailPattern(form.email) {
        newErrors := newErrors.(email := Some(EmailInvalid));
      }
      assert newErrors == NoErrors.(username := UsernameError(mode, form.username), email := EmailError(form.email));
      if form.password == "" {
        newErrors := newErrors.(password := Some(PasswordRequired));
      } else if |form.password| < MinPassword {
        newErrors := newErrors.(password := Some(PasswordTooShort));
      }
      errors := newErrors;
      ok := newErrors == NoErrors;
      ValidationAgreesWithIsFormValid(mode, form);
    }

    /** `handleInputChange`: store the value and clear that field's message if one is shown. */
    method HandleInputChange(field: Field, value: string)
      modifies this`form, this`errors
      ensures form == WithValue(old(form), field, value)
      ensures errors == if Shown(ErrorOf(old(errors), field)) then Cleared(old(errors), field) else old(errors)
    {
      form := WithValue(form, field, value);
      if Shown(ErrorOf(errors, field)) {
        errors := Cleared(errors, field);
      }
    }

    /**
     * `handleSubmit`: validate, and when the form passes, produce the toast
     * and the stored user record; an invalid form produces nothing.
     */
    method HandleSubmit() returns (outcome: Option<SignedIn>)
      modifies this`errors
      ensures errors == Validation(mode, form)
      ensures outcome.Some? <==> IsFormValid(mode, form)
      ensures outcome.Some? ==> outcome.value.toast == Welcome(mode)
      ensures outcome.Some? ==> outcome.value.user.email == form.email
      ensures outcome.Some? ==> outcome.value.user.username == if form.username != "" then form.username else "User"
    {
      var ok := ValidateForm();
      if !ok {
        return None;
      }
      var name := if form.username != "" then form.username else "User";
      outcome := Some(SignedIn(Welcome(mode), StoredUser(name, form.email)));
    }

    /** The "Sign In" / "Sign Up" link under the form. */
    method ToggleMode()
      modifies this`mode
      ensures mode == Switched(old(mode))
    {
      mode := Switched(mode);
    }
  }
}
