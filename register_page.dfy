/** The sign-up page (frontend/src/pages/Register.js): the field-by-field
    validation into an error dictionary, the input handler that clears one
    field's error, the trimmed registration payload, and the mapping of a
    failed registration to the text shown.

    The page only sees `apiCall`'s result, which is an input of the submit
    handler; the navigation to the login page three seconds after success
    is returned as the page the browser will go to. */
module RegisterPage {
  import opened Common
  import opened JsonValue
  import opened AxiosInstance

  const UsernameRequired := "Le nom d'utilisateur est obligatoire."
  const UsernameTooShort := "Le nom d'utilisateur doit contenir au moins 3 caractères."
  const FirstNameRequired := "Le prénom est obligatoire."
  const LastNameRequired := "Le nom est obligatoire."
  const EmailRequired := "L'email est obligatoire."
  const EmailInvalid := "Veuillez entrer un email valide."
  const PasswordRequired := "Le mot de passe est obligatoire."
  const PasswordTooShort := "Le mot de passe doit contenir au moins 6 caractères."
  const ConfirmRequired := "Veuillez confirmer votre mot de passe."
  const ConfirmMismatch := "Les mots de passe ne correspondent pas."
  const ConsentRequired := "Vous devez accepter la politique de confidentialité."
  const RegisteredMessage := "Inscription réussie! Vous pouvez maintenant vous connecter."
  const RegisterFailedText := "Échec de l'inscription"
  const GenericRegisterError := "Une erreur est survenue lors de l'inscription."
  const UsernameTakenText := "Ce nom d'utilisateur est déjà pris."
  const EmailUsedText := "Cet email est déjà utilisé."

  datatype Field = Username | FirstName | LastName | Email | Password | ConfirmPassword | Consent

  /** The input's `name` attribute, which is also the key in the error
      dictionary. */
  function Name(f: Field): string {
    match f
    case Username => "username"
    case FirstName => "first_name"
    case LastName => "last_name"
    case Email => "email"
    case Password => "password"
    case ConfirmPassword => "confirmPassword"
    case Consent => "consentement_rgpd"
  }

  datatype RegisterForm = RegisterForm(
    username: string,
    firstName: string,
    lastName: string,
    email: string,
    password: string,
    confirmPassword: string,
    consent: bool)

  const EmptyForm := RegisterForm("", "", "", "", "", "", false)

  /** The message `validate` records for one field, if any. */
  function FieldError(form: RegisterForm, f: Field): Option<string> {
    match f
    case Username =>
      if Blank(form.username) then Some(UsernameRequired)
      else if |form.username| < 3 then Some(UsernameTooShort) else None
    case FirstName => if Blank(form.firstName) then Some(FirstNameRequired) else None
    case LastName => if Blank(form.lastName) then Some(LastNameRequired) else None
    case Email =>
      if Blank(form.email) then Some(EmailRequired)
      else if !LooksLikeEmail(form.email) then Some(EmailInvalid) else None
    case Password =>
      if Blank(form.password) then Some(PasswordRequired)
      else if |form.password| < 6 then Some(PasswordTooShort) else None
    case ConfirmPassword =>
      if Blank(form.confirmPassword) then Some(ConfirmRequired)
      else if form.password != form.confirmPassword then Some(ConfirmMismatch) else None
    case Consent => if !form.consent then Some(ConsentRequired) else None
  }

  /** An independent reading of what the page accepts: every required text
      has a visible character, the username at least three characters (as
      typed), the e-mail matches the loose pattern, the password has six
      characters and a visible one, the confirmation repeats it, and the
      consent box is ticked. */
  predicate Acceptable(form: RegisterForm) {
    && !Blank(form.username) && |form.username| >= 3
    && !Blank(form.firstName) && !Blank(form.lastName)
    && LooksLikeEmail(form.email)
    && !Blank(form.password) && |form.password| >= 6
    && form.confirmPassword == form.password
    && form.consent
  }

  /** `newErrors.<field> = message` when the field has one. */
  function Record(m: map<string, string>, f: Field, e: Option<string>): map<string, string> {
    if e.Some? then m[Name(f) := e.value] else m
  }

  /** The dictionary `validate` builds, in its order of fields. */
  function FieldErrors(form: RegisterForm): map<string, string> {
    var m := Record(map[], Username, FieldError(form, Username));
    var m := Record(m, FirstName, FieldError(form, FirstName));
    var m := Record(m, LastName, FieldError(form, LastName));
    var m := Record(m, Email, FieldError(form, Email));
    var m := Record(m, Password, FieldError(form, Password));
    var m := Record(m, ConfirmPassword, FieldError(form, ConfirmPassword));
    Record(m, Consent, FieldError(form, Consent))
  }

  /** The page's state. */
  datatype RegisterState = RegisterState(
    form: RegisterForm,
    errors: map<string, string>,
    loading: bool,
    serverError: string,
    success: string)

  /** The page's reading of a failed registration's message. */
  function ErrorText(message: string): (t: string)
    ensures t != ""
    ensures Contains(message, "username already exists") ==> t == UsernameTakenText
    ensures !Contains(message, "username already exists") && Contains(message, "email already exists") ==>
      t == EmailUsedText
    ensures !Contains(message, "username already exists") && !Contains(message, "email already exists") ==>
      t == (if message != "" then message else GenericRegisterError)
  {
    if Contains(message, "username already exists") then UsernameTakenText
    else if Contains(message, "email already exists") then EmailUsedText
    else if message != "" then message
    else GenericRegisterError
  }

  /** The payload the page posts: four trimmed texts, the password as typed
      and the consent, under the keys `username`, `first_name`, `last_name`,
      `email`, `password` and `consentement_rgpd`; the confirmation is not
      sent. */
  datatype Registration = Registration(
    username: string, firstName: string, lastName: string,
    email: string, password: string, consent: bool)

  function Payload(form: RegisterForm): Registration {
    Registration(Trim(JavaScript, form.username), Trim(JavaScript, form.firstName),
                 Trim(JavaScript, form.lastName), Trim(JavaScript, form.email), form.password, form.consent)
  }

  /** The text shown after a failed registration: the error value is thrown
      as it is, so its string form is what the mapping reads. */
  function FailureText(error: Json): string {
    ErrorText(ErrorMessage(Or(error, JStr(RegisterFailedText))))
  }

  class RegisterPageState {
    var form: RegisterForm
    var errors: map<string, string>
    var loading: bool
    var serverError: string
    var success: string

    function State(): RegisterState
      reads this
    {
      RegisterState(form, errors, loading, serverError, success)
    }

    constructor ()
      ensures State() == RegisterState(EmptyForm, map[], false, "", "")
    {
      form, errors, loading, serverError, success := EmptyForm, map[], false, "", "";
    }

    /** `validate()`: the dictionary is built one field at a time, in the
        page's order, and the form passes when it stays empty. */
    method Validate() returns (ok: bool)
      modifies this
      ensures errors == FieldErrors(form)
      ensures ok <==> errors == map[]
      ensures ok <==> Acceptable(form)
      ensures form == old(form) && loading == old(loading)
      ensures serverError == old(serverError) && success == old(success)
    {
      var newErrors: map<string, string> := map[];
      newErrors := Check(newErrors, form, Username);
      newErrors := Check(newErrors, form, FirstName);
      newErrors := Check(newErrors, form, LastName);
      newErrors := Check(newErrors, form, Email);
      newErrors := Check(newErrors, form, Password);
      newErrors := Check(newErrors, form, ConfirmPassword);
      newErrors := Check(newErrors, form, Consent);
      errors := newErrors;
      ok := |errors| == 0;
      ValidateAcceptable(form);
    }

    /** `handleChange` for a text input (`checked` is ignored) or for the
        consent box (`value` is ignored). */
    method HandleChange(f: Field, value: string, checked: bool)
      modifies this
      ensures form == old(SetField(form, f, value, checked))
      ensures errors == old(if Name(f) in errors && errors[Name(f)] != "" then errors[Name(f) := ""] else errors)
      ensures serverError == "" && success == "" && loading == old(loading)
    {
      form := SetField(form, f, value, checked);
      if Name(f) in errors && errors[Name(f)] != "" {
        errors := errors[Name(f) := ""];
      }
      if serverError != "" {
        serverError := "";
      }
      if success != "" {
        success := "";
      }
    }

    /** `handleSubmit`, given the result of the registration call when it is
        made. Returns whether the call was made and the page the browser is
        sent to afterwards, if any. */
    method HandleSubmit(r: ApiResult) returns (called: bool, payload: Registration, target: Option<string>)
      modifies this
      ensures called <==> Acceptable(old(form))
      ensures called ==> payload == Payload(old(form))
      ensures !called ==>
        && form == old(form) && serverError == old(serverError) && success == old(success)
        && target == None && loading == old(loading)
      ensures called && r.ApiOk? ==>
        form == EmptyForm && success == RegisteredMessage && serverError == "" && target == Some("/login")
      ensures called && r.ApiErr? ==>
        form == old(form) && success == "" && serverError == FailureText(r.error) && target == None
      ensures called ==> !loading
      ensures errors == FieldErrors(old(form))
    {
      var before := form;
      var ok := Validate();
      if !ok {
        called, payload, target := false, Payload(before), None;
        return;
      }
      called, payload := true, Payload(before);
      target := Send(r);
    }

    /** The part of `handleSubmit` after validation: the flags are set, the
        call's result is read, and `loading` drops back in `finally`. */
    method Send(r: ApiResult) returns (target: Option<string>)
      modifies this
      ensures form == (if r.ApiOk? then EmptyForm else old(form))
      ensures success == (if r.ApiOk? then RegisteredMessage else "")
      ensures serverError == (if r.ApiOk? then "" else FailureText(r.error))
      ensures target == (if r.ApiOk? then Some("/login") else None)
      ensures !loading && errors == old(errors)
    {
      loading := true;
      serverError := "";
      success := "";
      target := None;
      if r.ApiOk? {
        success := RegisteredMessage;
        form := EmptyForm;
        target := Some("/login");
      } else {
        serverError := FailureText(r.error);
      }
      loading := false;
    }
  }

  /** One field's test in `validate()`: its message, if any, is stored
      under the field's name. */
  method Check(m: map<string, string>, form: RegisterForm, f: Field) returns (r: map<string, string>)
    ensures r == Record(m, f, FieldError(form, f))
  {
    r := m;
    match f
    case Username =>
      if Blank(form.username) {
        r := r["username" := UsernameRequired];
      } else if |form.username| < 3 {
        r := r["username" := UsernameTooShort];
      }
    case FirstName =>
      if Blank(form.firstName) {
        r := r["first_name" := FirstNameRequired];
      }
    case LastName =>
      if Blank(form.lastName) {
        r := r["last_name" := LastNameRequired];
      }
    case Email =>
      if Blank(form.email) {
        r := r["email" := EmailRequired];
      } else if !LooksLikeEmail(form.email) {
        r := r["email" := EmailInvalid];
      }
    case Password =>
      if Blank(form.password) {
        r := r["password" := PasswordRequired];
      } else if |form.password| < 6 {
        r := r["password" := PasswordTooShort];
      }
    case ConfirmPassword =>
      if Blank(form.confirmPassword) {
        r := r["confirmPassword" := ConfirmRequired];
      } else if form.password != form.confirmPassword {
        r := r["confirmPassword" := ConfirmMismatch];
      }
    case Consent =>
      if !form.consent {
        r := r["consentement_rgpd" := ConsentRequired];
      }
  }

  /** The form after one input event. */
  function SetField(form: RegisterForm, f: Field, value: string, checked: bool): (r: RegisterForm)
    ensures f == Consent ==> r == form.(consent := checked)
    ensures f != Consent ==> r.consent == form.consent
  {
    match f
    case Username => form.(username := value)
    case FirstName => form.(firstName := value)
    case LastName => form.(lastName := value)
    case Email => form.(email := value)
    case Password => form.(password := value)
    case ConfirmPassword => form.(confirmPassword := value)
    case Consent => form.(consent := checked)
  }

  /** A dictionary with an entry recorded in it is not empty. */
  lemma {:induction false} RecordEmpty(m: map<string, string>, f: Field, e: Option<string>)
    ensures Record(m, f, e) == map[] <==> m == map[] && e.None?
  {
    if e.Some? {
      assert Name(f) in Record(m, f, e);
    }
  }

  /** The dictionary is empty, so the form passes, exactly when no field has
      an error, and that is exactly the independent reading `Acceptable`. */
  lemma {:induction false} ValidateAcceptable(form: RegisterForm)
    ensures FieldErrors(form) == map[] <==> (forall f: Field :: FieldError(form, f).None?)
    ensures FieldErrors(form) == map[] <==> Acceptable(form)
  {
    var m1 := Record(map[], Username, FieldError(form, Username));
    var m2 := Record(m1, FirstName, FieldError(form, FirstName));
    var m3 := Record(m2, LastName, FieldError(form, LastName));
    var m4 := Record(m3, Email, FieldError(form, Email));
    var m5 := Record(m4, Password, FieldError(form, Password));
    var m6 := Record(m5, ConfirmPassword, FieldError(form, ConfirmPassword));
    RecordEmpty(map[], Username, FieldError(form, Username));
    RecordEmpty(m1, FirstName, FieldError(form, FirstName));
    RecordEmpty(m2, LastName, FieldError(form, LastName));
    RecordEmpty(m3, Email, FieldError(form, Email));
    RecordEmpty(m4, Password, FieldError(form, Password));
    RecordEmpty(m5, ConfirmPassword, FieldError(form, ConfirmPassword));
    RecordEmpty(m6, Consent, FieldError(form, Consent));
    if LooksLikeEmail(form.email) {
      EmailMatchIsNotBlank(form.email);
    }
    if forall f: Field :: FieldError(form, f).None? {
      assert FieldError(form, Username).None? && FieldError(form, FirstName).None?;
      assert FieldError(form, LastName).None? && FieldError(form, Email).None?;
      assert FieldError(form, Password).None? && FieldError(form, ConfirmPassword).None?;
      assert FieldError(form, Consent).None?;
    }
  }

  /** Every key of the dictionary names a field, and a field has a key
      exactly when it has an error. */
  lemma {:induction false} FieldErrorsKeys(form: RegisterForm, f: Field)
    ensures Name(f) in FieldErrors(form) <==> FieldError(form, f).Some?
  {
  }

  /** The payload carries the trimmed texts: trimming it again changes
      nothing, a form typed without surrounding blanks is sent as typed, and
      the password is sent untouched. */
  lemma {:induction false} PayloadIsTrimmed(form: RegisterForm)
    ensures var d := Payload(form);
      && Trim(JavaScript, d.username) == d.username && Trim(JavaScript, d.firstName) == d.firstName
      && Trim(JavaScript, d.lastName) == d.lastName && Trim(JavaScript, d.email) == d.email
      && d.password == form.password && d.consent == form.consent
    ensures Trim(JavaScript, form.username) == form.username ==> Payload(form).username == form.username
  {
    var d := Payload(form);
    assert d.username == Trim(JavaScript, form.username) && d.firstName == Trim(JavaScript, form.firstName);
    assert d.lastName == Trim(JavaScript, form.lastName) && d.email == Trim(JavaScript, form.email);
    TrimIdempotent(JavaScript, form.username);
    TrimIdempotent(JavaScript, form.firstName);
    TrimIdempotent(JavaScript, form.lastName);
    TrimIdempotent(JavaScript, form.email);
  }

  /** The length rule reads the username as typed: two blanks and one
      visible character pass validation, and the name sent is one character
      long. */
  lemma {:induction false} UntrimmedUsernameLength(form: RegisterForm, c: char)
    requires form.username == "  " + [c] && !IsSpace(JavaScript, c)
    ensures FieldError(form, Username) == None
    ensures Payload(form).username == [c] && |Payload(form).username| < 3
  {
    assert AllSpace(JavaScript, "  ");
    assert AllSpace(JavaScript, "");
    TrimPadded(JavaScript, "  ", [c], "");
    assert "  " + [c] + "" == form.username;
    assert form.username[2] == c;
  }

  /** An error object from the server is shown as "[object Object]": the
      two friendly texts are reachable only for a string (or list) error. */
  lemma {:induction false} ObjectErrorShownVerbatim(fields: map<string, Json>)
    ensures FailureText(JObj(fields)) == "[object Object]"
  {
    var m := "[object Object]";
    ContainsNeedsChar(m, "username already exists", 'u');
    ContainsNeedsChar(m, "email already exists", 'a');
  }

  /** A server message naming a taken user name is replaced by the page's
      own text. */
  lemma UsernameTakenMapped()
    ensures FailureText(JStr("A user with that username already exists.")) == UsernameTakenText
  {
    var pre, sub := "A user with that ", "username already exists";
    var m := pre + sub + ".";
    assert m == "A user with that username already exists.";
    assert m[|pre|..|pre| + |sub|] == sub;
    ContainsAt(m, |pre|, sub);
  }
}
