/** The contact page (frontend/src/pages/contact.js): the validation into
    an error dictionary, the input handler, the message composed from the
    form, and what the page shows once the post has settled.

    The post goes through the shared axios instance, so its interceptors
    run on the session store; the replies are inputs. What the page shows
    is the value it stores in `serverMessage`, which need not be a string. */
module ContactPage {
  import opened Common
  import opened JsonValue
  import opened SessionStore
  import opened AxiosInstance
  import Serializers
  import TaskViews

  const NomRequired := "Le nom est requis."
  const PrenomRequired := "Le prénom est requis."
  const EmailRequired := "L\U{2019}email est requis."
  const EmailInvalid := "Veuillez entrer un email valide."
  const TelephoneRequired := "Le téléphone est requis."
  const MessageRequired := "Le message est requis."
  const CguRequired := "Vous devez accepter les CGU."
  const SentFallback := "Message envoyé avec succès !"
  const NetworkError := "Erreur réseau. Veuillez réessayer plus tard."
  const PhoneLabel := "\n\nTéléphone: "
  const ContactUrl := "/contact/"

  datatype Field = Nom | Prenom | Email | Telephone | Message | Cgu

  /** The input's `name`, also its key in the error dictionary. */
  function Name(f: Field): string {
    match f
    case Nom => "nom"
    case Prenom => "prenom"
    case Email => "email"
    case Telephone => "telephone"
    case Message => "message"
    case Cgu => "cgu"
  }

  datatype ContactForm = ContactForm(
    nom: string, prenom: string, email: string, telephone: string, message: string, cgu: bool)

  const EmptyForm := ContactForm("", "", "", "", "", false)

  /** The message `validate` records for one field, if any. The e-mail is
      tested for emptiness as typed, not after trimming. */
  function FieldError(form: ContactForm, f: Field): Option<string> {
    match f
    case Nom => if Blank(form.nom) then Some(NomRequired) else None
    case Prenom => if Blank(form.prenom) then Some(PrenomRequired) else None
    case Email =>
      if form.email == "" then Some(EmailRequired)
      else if !LooksLikeEmail(form.email) then Some(EmailInvalid) else None
    case Telephone => if Blank(form.telephone) then Some(TelephoneRequired) else None
    case Message => if Blank(form.message) then Some(MessageRequired) else None
    case Cgu => if !form.cgu then Some(CguRequired) else None
  }

  /** An independent reading of what the page accepts: a visible character
      in the two names, the phone number and the message, an e-mail that
      matches the loose pattern, and the terms ticked. */
  predicate Acceptable(form: ContactForm) {
    && !Blank(form.nom) && !Blank(form.prenom)
    && LooksLikeEmail(form.email)
    && !Blank(form.telephone) && !Blank(form.message)
    && form.cgu
  }

  function Record(m: map<string, string>, f: Field, e: Option<string>): map<string, string> {
    if e.Some? then m[Name(f) := e.value] else m
  }

  /** The dictionary `validate` builds, in its order of fields. */
  function FieldErrors(form: ContactForm): map<string, string> {
    var m := Record(map[], Nom, FieldError(form, Nom));
    var m := Record(m, Prenom, FieldError(form, Prenom));
    var m := Record(m, Email, FieldError(form, Email));
    var m := Record(m, Telephone, FieldError(form, Telephone));
    var m := Record(m, Message, FieldError(form, Message));
    Record(m, Cgu, FieldError(form, Cgu))
  }

  lemma {:induction false} RecordEmpty(m: map<string, string>, f: Field, e: Option<string>)
    ensures Record(m, f, e) == map[] <==> m == map[] && e.None?
  {
    if e.Some? {
      assert Name(f) in Record(m, f, e);
    }
  }

  /** The dictionary is empty exactly when the form is acceptable. */
  lemma {:induction false} ValidateAcceptable(form: ContactForm)
    ensures FieldErrors(form) == map[] <==> Acceptable(form)
  {
    var m1 := Record(map[], Nom, FieldError(form, Nom));
    var m2 := Record(m1, Prenom, FieldError(form, Prenom));
    var m3 := Record(m2, Email, FieldError(form, Email));
    var m4 := Record(m3, Telephone, FieldError(form, Telephone));
    var m5 := Record(m4, Message, FieldError(form, Message));
    RecordEmpty(map[], Nom, FieldError(form, Nom));
    RecordEmpty(m1, Prenom, FieldError(form, Prenom));
    RecordEmpty(m2, Email, FieldError(form, Email));
    RecordEmpty(m3, Telephone, FieldError(form, Telephone));
    RecordEmpty(m4, Message, FieldError(form, Message));
    RecordEmpty(m5, Cgu, FieldError(form, Cgu));
    if LooksLikeEmail(form.email) {
      EmailMatchIsNotBlank(form.email);
    }
  }

  /** An e-mail of blanks only is not "missing": it is reported as
      invalid, because emptiness is tested before trimming. */
  lemma {:induction false} BlankEmailCalledInvalid(form: ContactForm)
    requires form.email != "" && AllSpace(JavaScript, form.email)
    ensures FieldError(form, Email) == Some(EmailInvalid)
  {
    if LooksLikeEmail(form.email) {
      EmailMatchIsNotBlank(form.email);
    }
  }

  /** The body the page posts: the full name, the e-mail as typed, a
      subject built from the name, and the message followed by the phone
      number. */
  function Payload(form: ContactForm): Serializers.ContactData {
    Serializers.ContactData(
      form.prenom + " " + form.nom,
      form.email,
      "Contact from " + form.prenom + " " + form.nom,
      form.message + PhoneLabel + form.telephone)
  }

  function PayloadJson(d: Serializers.ContactData): Json {
    JObj(map["name" := JStr(d.name), "email" := JStr(d.email),
             "subject" := JStr(d.subject), "message" := JStr(d.message)])
  }

  function ContactRequest(form: ContactForm): Request {
    NewRequest("post", ContactUrl, PayloadJson(Payload(form)))
  }

  /** A post that resolved with a body: `response.data.success` can be
      read. On a null body the read throws inside the `try`, and the
      `catch` takes over. */
  predicate Delivered(outcome: Settlement) {
    outcome.Resolved? && !Nullish(outcome.response.body)
  }

  /** `err.response?.data?.error`: undefined for an error without a
      response, such as the TypeError of a null body. */
  function ErrorField(outcome: Settlement): Json {
    if outcome.Rejected? && outcome.failure.response.Some? then
      Get(outcome.failure.response.value.body, "error")
    else JUndefined
  }

  /** What `serverMessage` holds once the post has settled. */
  function MessageAfter(outcome: Settlement): (m: Json)
    ensures Truthy(m)
    ensures Delivered(outcome) ==>
      (Truthy(Get(outcome.response.body, "success")) ==> m == Get(outcome.response.body, "success"))
    ensures Delivered(outcome) && !Truthy(Get(outcome.response.body, "success")) ==> m == JStr(SentFallback)
    ensures !Delivered(outcome) ==> m == ErrorField(outcome) || m == JStr(NetworkError)
    ensures !Delivered(outcome) ==> (m == JStr(NetworkError) <==> !Truthy(ErrorField(outcome)) || ErrorField(outcome) == JStr(NetworkError))
  {
    if Delivered(outcome) then Or(Get(outcome.response.body, "success"), JStr(SentFallback))
    else Or(ErrorField(outcome), JStr(NetworkError))
  }

  /** The page's state. */
  class ContactPageState {
    var form: ContactForm
    var errors: map<string, string>
    var serverMessage: Json
    var loading: bool

    constructor ()
      ensures form == EmptyForm && errors == map[] && serverMessage == JStr("") && !loading
    {
      form, errors, serverMessage, loading := EmptyForm, map[], JStr(""), false;
    }

    /** `validate()`. */
    method Validate() returns (ok: bool)
      modifies this
      ensures errors == FieldErrors(form)
      ensures ok <==> errors == map[]
      ensures ok <==> Acceptable(form)
      ensures form == old(form) && serverMessage == old(serverMessage) && loading == old(loading)
    {
      var newErrors: map<string, string> := map[];
      newErrors := Check(newErrors, form, Nom);
      newErrors := Check(newErrors, form, Prenom);
      newErrors := Check(newErrors, form, Email);
      newErrors := Check(newErrors, form, Telephone);
      newErrors := Check(newErrors, form, Message);
      newErrors := Check(newErrors, form, Cgu);
      errors := newErrors;
      ok := |errors| == 0;
      ValidateAcceptable(form);
    }

    /** `handleChange`: the field takes the new value (the box its checked
        state), its error is set to the empty string whether it had one or
        not, and the server message is cleared. */
    method HandleChange(f: Field, value: string, checked: bool)
      modifies this
      ensures form == SetField(old(form), f, value, checked)
      ensures errors == old(errors)[Name(f) := ""]
      ensures serverMessage == JStr("") && loading == old(loading)
    {
      form := SetField(form, f, value, checked);
      errors := errors[Name(f) := ""];
      serverMessage := JStr("");
    }

    /** `handleSubmit`: nothing is posted for a form that fails validation;
        otherwise the exchange with the server is returned. */
    method HandleSubmit(st: Storage, base: string, pathname: string, replies: seq<Reply>)
      returns (x: Option<Exchange>)
      modifies this, st
      ensures x.None? <==> !Acceptable(old(form))
      ensures x.None? ==> form == old(form) && serverMessage == old(serverMessage) && st.items == old(st.items)
      ensures x.Some? ==>
        && x.value == Interception(base, old(st.items), ContactRequest(old(form)), pathname, replies)
        && st.items == x.value.items
        && serverMessage == MessageAfter(x.value.outcome)
        && form == (if Delivered(x.value.outcome) then EmptyForm else old(form))
      ensures errors == FieldErrors(old(form))
      ensures x.Some? ==> !loading
      ensures x.None? ==> loading == old(loading)
    {
      var ok := Validate();
      if !ok {
        return None;
      }
      var exchange := Send(st, base, pathname, replies);
      x := Some(exchange);
    }

    /** The `try` block, its `catch` and `finally`. */
    method Send(st: Storage, base: string, pathname: string, replies: seq<Reply>)
      returns (x: Exchange)
      requires errors == map[]
      modifies this, st
      ensures x == Interception(base, old(st.items), ContactRequest(old(form)), pathname, replies)
      ensures st.items == x.items
      ensures serverMessage == MessageAfter(x.outcome)
      ensures form == (if Delivered(x.outcome) then EmptyForm else old(form))
      ensures errors == map[] && !loading
    {
      loading := true;
      serverMessage := JStr("");
      x := Dispatch(st, base, ContactRequest(form), pathname, replies);
      if Delivered(x.outcome) {
        serverMessage := Or(Get(x.outcome.response.body, "success"), JStr(SentFallback));
        form := EmptyForm;
        errors := map[];
      } else {
        serverMessage := Or(ErrorField(x.outcome), JStr(NetworkError));
      }
      loading := false;
    }
  }

  /** One field's test in `validate()`. */
  method Check(m: map<string, string>, form: ContactForm, f: Field) returns (r: map<string, string>)
    ensures r == Record(m, f, FieldError(form, f))
  {
    r := m;
    match f
    case Nom =>
      if Blank(form.nom) {
        r := r["nom" := NomRequired];
      }
    case Prenom =>
      if Blank(form.prenom) {
        r := r["prenom" := PrenomRequired];
      }
    case Email =>
      if form.email == "" {
        r := r["email" := EmailRequired];
      } else if !LooksLikeEmail(form.email) {
        r := r["email" := EmailInvalid];
      }
    case Telephone =>
      if Blank(form.telephone) {
        r := r["telephone" := TelephoneRequired];
      }
    case Message =>
      if Blank(form.message) {
        r := r["message" := MessageRequired];
      }
    case Cgu =>
      if !form.cgu {
        r := r["cgu" := CguRequired];
      }
  }

  /** The form after one input event. */
  function SetField(form: ContactForm, f: Field, value: string, checked: bool): (r: ContactForm)
    ensures f == Cgu ==> r == form.(cgu := checked)
    ensures f != Cgu ==> r.cgu == form.cgu
  {
    match f
    case Nom => form.(nom := value)
    case Prenom => form.(prenom := value)
    case Email => form.(email := value)
    case Telephone => form.(telephone := value)
    case Message => form.(message := value)
    case Cgu => form.(cgu := checked)
  }

  /** A visible character of a text that is not all whitespace. */
  lemma {:induction false} Visible(lang: Language, s: string) returns (i: nat)
    requires !AllSpace(lang, s)
    ensures i < |s| && !IsSpace(lang, s[i])
  {
    i :| 0 <= i < |s| && !IsSpace(lang, s[i]);
  }

  /** Two texts with a character each that the server does not strip,
      joined around `mid`: the join keeps at least `mid` and one character
      on each side after stripping. */
  lemma {:induction false} JoinedTrimLength(x: string, mid: string, y: string)
    requires !AllSpace(Python, x) && !AllSpace(Python, y)
    ensures |Trim(Python, x + mid + y)| >= |mid| + 2
  {
    var s := x + mid + y;
    var i := Visible(Python, x);
    var j := Visible(Python, y);
    assert s[i] == x[i];
    assert s[|x| + |mid| + j] == y[j];
    TrimSpan(Python, s, i, |x| + |mid| + j);
  }

  /** What the server's stripping leaves of the posted texts. The subject
      keeps "Contact from" and the message keeps "Téléphone:", so both
      clear the server's minimums (five and ten) whatever was typed. When
      the last name holds a character Python does not strip, the subject
      keeps fifteen; when both names do, the name keeps three (the server
      wants two); when the message and the phone number do, the message
      keeps fifteen.
      The page's own check trims with JavaScript's narrower set, so it does
      not ensure the name's bound (see SeparatorNameRefusedByServer). */
  lemma {:induction false} PayloadMeetsServerMinimums(form: ContactForm)
    ensures var d := Payload(form);
      && |Trim(Python, d.subject)| >= 12 && |Trim(Python, d.message)| >= 10
      && (!AllSpace(Python, form.nom) ==> |Trim(Python, d.subject)| >= 15)
      && (!AllSpace(Python, form.prenom) && !AllSpace(Python, form.nom) ==> |Trim(Python, d.name)| >= 3)
      && (!AllSpace(Python, form.message) && !AllSpace(Python, form.telephone) ==>
            |Trim(Python, d.message)| >= 15)
  {
    SubjectMinimum(form.prenom, form.nom);
    MessageMinimum(form.message, form.telephone);
    if !AllSpace(Python, form.prenom) && !AllSpace(Python, form.nom) {
      JoinedTrimLength(form.prenom, " ", form.nom);
    }
    if !AllSpace(Python, form.message) && !AllSpace(Python, form.telephone) {
      JoinedTrimLength(form.message, PhoneLabel, form.telephone);
    }
  }

  lemma {:induction false} SubjectMinimum(prenom: string, nom: string)
    ensures |Trim(Python, "Contact from " + prenom + " " + nom)| >= 12
    ensures !AllSpace(Python, nom) ==> |Trim(Python, "Contact from " + prenom + " " + nom)| >= 15
  {
    var lead := "Contact from " + prenom + " ";
    assert lead[0] == 'C' && lead[11] == 'm' && |lead| == 14 + |prenom|;
    LeadKept(lead, nom, 0, 11);
    if !AllSpace(Python, nom) {
      TailKept(lead, nom);
    }
  }

  lemma {:induction false} MessageMinimum(message: string, telephone: string)
    ensures |Trim(Python, message + PhoneLabel + telephone)| >= 10
  {
    var lead := message + PhoneLabel;
    var n := |message|;
    assert lead[n + 2] == PhoneLabel[2] == 'T' && lead[n + 11] == PhoneLabel[11] == ':';
    LeadKept(lead, telephone, n + 2, n + 11);
  }

  /** Stripping keeps the stretch between two visible characters of the
      leading part. */
  lemma {:induction false} LeadKept(lead: string, rest: string, i: nat, j: nat)
    requires i <= j < |lead| && !IsSpace(Python, lead[i]) && !IsSpace(Python, lead[j])
    ensures |Trim(Python, lead + rest)| >= j - i + 1
  {
    var s := lead + rest;
    assert s[i] == lead[i] && s[j] == lead[j];
    TrimSpan(Python, s, i, j);
  }

  /** A leading part that starts visibly, followed by a text with a
      visible character, keeps the whole leading part after stripping. */
  lemma {:induction false} TailKept(lead: string, rest: string)
    requires lead != [] && !IsSpace(Python, lead[0]) && !AllSpace(Python, rest)
    ensures |Trim(Python, lead + rest)| >= |lead| + 1
  {
    var s := lead + rest;
    var j := Visible(Python, rest);
    assert s[0] == lead[0] && s[|lead| + j] == rest[j];
    TrimSpan(Python, s, 0, |lead| + j);
  }

  /** A first and a last name made of the separator U+001C pass the page,
      whose `trim` keeps that character, and strip to nothing on the
      server, which refuses the name as blank. */
  lemma {:induction false} SeparatorNameRefusedByServer(form: ContactForm)
    requires form.prenom == "\U{1C}" && form.nom == "\U{1C}"
    requires LooksLikeEmail(form.email) && !Blank(form.telephone) && !Blank(form.message) && form.cgu
    ensures Acceptable(form)
    ensures Serializers.NameVerdict(Payload(form).name) == Serializers.Invalid(Serializers.BlankMessage)
  {
    assert !IsSpace(JavaScript, form.prenom[0]);
    var name := Payload(form).name;
    assert name == "\U{1C} \U{1C}";
    assert AllSpace(Python, name) by {
      assert IsSpace(Python, name[0]) && IsSpace(Python, name[1]) && IsSpace(Python, name[2]);
    }
  }

  /** A character that is neither a letter nor whitespace in the last name
      (a digit, a hyphen, an apostrophe) passes the page and is refused by
      the server's letters-only rule for the name. Letters here are the
      ASCII letters: Python's `isalpha` also accepts accented ones. */
  lemma {:induction false} NameCharacterRefusedByServer(form: ContactForm, k: nat)
    requires Acceptable(form)
    requires k < |form.nom| && !Serializers.IsLetter(form.nom[k]) && !IsSpace(Python, form.nom[k])
    ensures Serializers.NameVerdict(Payload(form).name).Invalid?
  {
    var d := Payload(form);
    var c := form.nom[k];
    var j := |form.prenom| + 1 + k;
    assert d.name[j] == c;
    TrimSpan(Python, d.name, j, j);
    var field := Serializers.CharField(d.name, 2, 100);
    if field.Valid? {
      var w := Serializers.WithoutSpaces(field.value);
      assert c in w;
      var i :| 0 <= i < |w| && w[i] == c;
      assert !Serializers.IsAlpha(w);
    }
  }

  /** The server's reply as the page receives it: a flat body read as a
      JSON object of strings. */
  function BodyJson(body: map<string, string>): Json {
    JObj(map k | k in body :: JStr(body[k]))
  }

  /** A sent mail shows the server's own success text; a failure of the
      mail backend shows the server's error text when that text is not
      empty; a refusal of the data, whose body carries only field errors,
      shows the network error text. */
  lemma {:induction false} ServerRepliesShown(validated: Option<Serializers.ContactData>,
      errors: map<string, string>, admin: string, mailError: Option<string>, message: string)
    requires "error" !in errors
    ensures var r := TaskViews.Respond(validated, errors, admin, mailError).response;
      && (r.status == 200 ==>
            MessageAfter(Resolved(Response(200, BodyJson(r.body)))) == JStr(TaskViews.ContactSent))
      && (r.status == 500 && mailError.value != "" ==>
            MessageAfter(Rejected(Failure(message, Some(Response(500, BodyJson(r.body)))))) == JStr(mailError.value))
      && (r.status == 400 ==>
            MessageAfter(Rejected(Failure(message, Some(Response(400, BodyJson(r.body)))))) == JStr(NetworkError))
  {
    var r := TaskViews.Respond(validated, errors, admin, mailError).response;
    if r.status == 200 {
      assert Get(BodyJson(r.body), "success") == JStr(TaskViews.ContactSent);
    } else if r.status == 500 {
      assert Get(BodyJson(r.body), "error") == JStr(mailError.value);
    }
  }

  /** The server's error dictionary only has the four field names as keys,
      so the page never finds an `error` entry in it. */
  lemma {:induction false} FieldErrorsHaveNoErrorKey(name: Serializers.Verdict, email: Serializers.Verdict,
                                                     subject: Serializers.Verdict, message: Serializers.Verdict)
    ensures "error" !in Serializers.Errors(name, email, subject, message)
  {
    Serializers.ErrorsKeys(name, email, subject, message);
    ErrorIsNoField();
  }

  /** `error` is none of the four field names. */
  lemma ErrorIsNoField()
    ensures "error" !in {"name", "email", "subject", "message"}
  {
    assert "error"[0] != "name"[0] && "error"[1] != "email"[1];
    assert "error"[0] != "subject"[0] && "error"[0] != "message"[0];
  }
}
