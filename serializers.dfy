/** The backend's serializers (backend/todolist_app/serializers.py): the
    task text and object-level rules of `TaskSerializer`, its two computed
    fields, and the contact form's `ContactSerializer` with the bounds its
    fields declare and its three field validators.

    Python's `str.strip`, `isalpha` and `title` are read over ASCII: the
    whitespace is `Common.IsSpace(Python, _)` and the letters are A-Z and
    a-z. The
    field machinery of Django REST framework that runs before a
    `validate_<field>` method (the blank check, then trimming, then the
    length bounds) is written out in `CharField`; it serves both the
    contact fields and the `task` field that `ModelSerializer` derives from
    the model (`TaskVerdict`). */
module Serializers {
  import opened Common

  /** A field validator's outcome: the value it returns, or the message of
      the `ValidationError` it raises. */
  datatype Verdict = Valid(value: string) | Invalid(message: string)

  const TaskTooShort := "Task must be at least 3 characters long"
  const TaskTooLong := "Task cannot exceed 200 characters"
  const DoneNeedsText := "Task must be at least 3 characters to mark as done"
  const NameNotLetters := "Name should contain only letters and spaces"
  const SubjectTooShort := "Subject must be at least 5 characters long"
  const MessageTooShort := "Message must be at least 10 characters long"
  const BlankMessage := "This field may not be blank."

  // ----- TaskSerializer -----

  /** `validate_task`: the stripped text, when its length lies in 3..200. */
  function ValidateTask(value: string): (v: Verdict)
    ensures v.Valid? <==> 3 <= |Trim(Python, value)| <= 200
    ensures v.Valid? ==> v.value == Trim(Python, value)
    ensures v.Invalid? ==> v.message == (if |Trim(Python, value)| < 3 then TaskTooShort else TaskTooLong)
  {
    var stripped := Trim(Python, value);
    if |stripped| < 3 then Invalid(TaskTooShort)
    else if |stripped| > 200 then Invalid(TaskTooLong)
    else Valid(stripped)
  }

  /** The length is measured after Python's `strip`, which also removes the
      separators U+001C to U+001F: two letters between two separators are
      too short. */
  lemma SeparatorPaddedTaskRefused(c: char, a: char, b: char, d: char)
    requires '\U{1C}' <= c <= '\U{1F}' && '\U{1C}' <= d <= '\U{1F}'
    requires !IsSpace(Python, a) && !IsSpace(Python, b)
    ensures ValidateTask([c] + [a, b] + [d]) == Invalid(TaskTooShort)
  {
    SeparatorsStrippedOnlyByPython(c, [a, b], d);
  }

  /** An accepted text is already stripped and is accepted again unchanged:
      `validate_task` is idempotent. */
  lemma {:induction false} ValidateTaskIdempotent(value: string)
    requires ValidateTask(value).Valid?
    ensures var t := ValidateTask(value).value;
      && Trim(Python, t) == t && 3 <= |t| <= 200
      && ValidateTask(t) == Valid(t)
  {
    var t := Trim(Python, value);
    assert ValidateTask(value).value == t;
    TrimIdempotent(Python, value);
    assert Trim(Python, t) == t;
  }

  /** The fields `validate` reads: `task` and `done`, each absent when the
      request (a partial update, say) did not carry it. */
  datatype TaskData = TaskData(task: Option<string>, done: Option<bool>)

  /** `validate(data)`: `done` may only be true when the stripped text (or
      "" when absent) has three characters. */
  function ValidateData(data: TaskData): (r: Option<string>)
    ensures r.Some? ==> r.value == DoneNeedsText
    ensures r.Some? <==>
      data.done == Some(true) && |Trim(Python, if data.task.Some? then data.task.value else "")| < 3
  {
    var text := if data.task.Some? then data.task.value else "";
    if data.done == Some(true) && |Trim(Python, text)| < 3 then Some(DoneNeedsText) else None
  }

  /** Once `validate_task` has accepted the text, the object-level rule can
      no longer fire; without a text (a partial update carrying only
      `done: true`) it always fires, and `done: false` never does. */
  lemma {:induction false} DoneRuleAfterTaskRule(t: string, done: Option<bool>)
    ensures ValidateTask(t).Valid? ==> ValidateData(TaskData(Some(ValidateTask(t).value), done)).None?
    ensures ValidateData(TaskData(None, Some(true))) == Some(DoneNeedsText)
    ensures ValidateData(TaskData(Some(t), Some(false))).None?
    ensures ValidateData(TaskData(Some(t), None)).None?
  {
    if ValidateTask(t).Valid? {
      ValidateTaskIdempotent(t);
      var v := ValidateTask(t).value;
      assert |Trim(Python, v)| >= 3;
    }
  }

  /** `get_status`. */
  function Status(done: bool): (s: string)
    ensures s == "Completed" <==> done
    ensures s == "Pending" <==> !done
  {
    if done then "Completed" else "Pending"
  }

  /** `get_task_length`: the length of the stored text. For a text that
      went through `validate_task`, it lies in 3..200. */
  function TaskLength(task: string): (n: nat)
    ensures n == |task|
    ensures ValidateTask(task).Valid? && Trim(Python, task) == task ==> 3 <= n <= 200
  {
    |task|
  }

  // ----- ContactSerializer -----

  /** A `CharField(min_length, max_length, trim_whitespace=True)` before
      the serializer's own validator: blank input is refused, the value is
      stripped, and the bounds are checked on the stripped value. */
  function CharField(raw: string, minLength: nat, maxLength: nat): (v: Verdict)
    ensures v.Valid? <==> Trim(Python, raw) != [] && minLength <= |Trim(Python, raw)| <= maxLength
    ensures v.Valid? ==> v.value == Trim(Python, raw)
  {
    var value := Trim(Python, raw);
    if value == [] then Invalid(BlankMessage)
    else if |value| < minLength then Invalid(MinLengthMessage(minLength))
    else if |value| > maxLength then Invalid(MaxLengthMessage(maxLength))
    else Valid(value)
  }

  function MinLengthMessage(n: nat): string {
    "Ensure this field has at least " + NatToString(n) + " characters."
  }

  function MaxLengthMessage(n: nat): string {
    "Ensure this field has no more than " + NatToString(n) + " characters."
  }

  predicate IsLetter(c: char) {
    'A' <= c <= 'Z' || 'a' <= c <= 'z'
  }

  function Upper(c: char): (u: char)
    ensures IsLetter(c) ==> IsLetter(u)
  {
    if 'a' <= c <= 'z' then (c as int - 32) as char else c
  }

  function Lower(c: char): (l: char)
    ensures IsLetter(c) ==> IsLetter(l)
  {
    if 'A' <= c <= 'Z' then (c as int + 32) as char else c
  }

  /** `value.replace(' ', '')`. */
  function WithoutSpaces(s: string): (r: string)
    ensures |r| <= |s|
    ensures forall c :: c in r <==> c in s && c != ' '
  {
    if s == [] then []
    else if s[0] == ' ' then WithoutSpaces(s[1..])
    else [s[0]] + WithoutSpaces(s[1..])
  }

  /** `str.isalpha()`: non-empty and letters only. */
  predicate IsAlpha(s: string) {
    s != [] && forall i :: 0 <= i < |s| ==> IsLetter(s[i])
  }

  /** `str.title()` over letters and other characters: a letter that
      follows a letter is lowered, any other letter is raised. */
  function TitleFrom(s: string, afterLetter: bool): (r: string)
    ensures |r| == |s|
  {
    if s == [] then []
    else
      var c := if !IsLetter(s[0]) then s[0] else if afterLetter then Lower(s[0]) else Upper(s[0]);
      [c] + TitleFrom(s[1..], IsLetter(s[0]))
  }

  function Title(s: string): string {
    TitleFrom(s, false)
  }

  /** Title-casing keeps every position's kind: letters stay letters and
      every other character is kept as it is. */
  lemma {:induction false} TitleKeepsKinds(s: string, afterLetter: bool)
    ensures forall i :: 0 <= i < |s| ==>
      (IsLetter(TitleFrom(s, afterLetter)[i]) <==> IsLetter(s[i]))
      && (!IsLetter(s[i]) ==> TitleFrom(s, afterLetter)[i] == s[i])
    decreases |s|
  {
    if s != [] {
      TitleKeepsKinds(s[1..], IsLetter(s[0]));
      var r := TitleFrom(s, afterLetter);
      assert r[1..] == TitleFrom(s[1..], IsLetter(s[0]));
      forall i | 1 <= i < |s|
        ensures (IsLetter(r[i]) <==> IsLetter(s[i])) && (!IsLetter(s[i]) ==> r[i] == s[i])
      {
        assert r[i] == r[1..][i - 1] && s[i] == s[1..][i - 1];
      }
    }
  }

  /** Title-casing twice is title-casing once. */
  lemma {:induction false} TitleIdempotent(s: string, afterLetter: bool)
    ensures TitleFrom(TitleFrom(s, afterLetter), afterLetter) == TitleFrom(s, afterLetter)
    decreases |s|
  {
    if s != [] {
      var r := TitleFrom(s, afterLetter);
      assert r[0] == (if !IsLetter(s[0]) then s[0] else if afterLetter then Lower(s[0]) else Upper(s[0]));
      assert IsLetter(r[0]) <==> IsLetter(s[0]);
      assert r[1..] == TitleFrom(s[1..], IsLetter(s[0]));
      TitleIdempotent(s[1..], IsLetter(s[0]));
    }
  }

  /** `validate_name`: letters and spaces only, returned title-cased. */
  function ValidateName(value: string): (v: Verdict)
    ensures v.Valid? <==> IsAlpha(WithoutSpaces(value))
    ensures v.Valid? ==> v.value == Title(value)
    ensures v.Invalid? ==> v.message == NameNotLetters
  {
    if !IsAlpha(WithoutSpaces(value)) then Invalid(NameNotLetters) else Valid(Title(value))
  }

  /** An accepted name has a letter, and every character in it is a letter
      or a space; title-casing keeps its length and each position's kind,
      and a second pass changes nothing. */
  lemma {:induction false} NameShape(value: string)
    requires ValidateName(value).Valid?
    ensures var n := ValidateName(value).value;
      && |n| == |value|
      && (forall i :: 0 <= i < |n| ==> IsLetter(n[i]) || n[i] == ' ')
      && (exists i :: 0 <= i < |n| && IsLetter(n[i]))
      && ValidateName(n) == Valid(n)
  {
    var w := WithoutSpaces(value);
    var n := Title(value);
    TitleKeepsKinds(value, false);
    TitleIdempotent(value, false);
    forall i | 0 <= i < |value| ensures IsLetter(value[i]) || value[i] == ' ' {
      if value[i] != ' ' {
        assert value[i] in w;
        var j :| 0 <= j < |w| && w[j] == value[i];
      }
    }
    assert w[0] in value;
    var k :| 0 <= k < |value| && value[k] == w[0];
    assert IsLetter(n[k]);
    NameAlpha(n);
  }

  /** A string of letters and spaces with a letter is accepted. */
  lemma {:induction false} NameAlpha(n: string)
    requires forall i :: 0 <= i < |n| ==> IsLetter(n[i]) || n[i] == ' '
    requires exists i :: 0 <= i < |n| && IsLetter(n[i])
    ensures IsAlpha(WithoutSpaces(n))
  {
    var w := WithoutSpaces(n);
    var k :| 0 <= k < |n| && IsLetter(n[k]);
    assert n[k] in w;
    forall i | 0 <= i < |w| ensures IsLetter(w[i]) {
      assert w[i] in n;
    }
  }

  /** `validate_subject`: the stripped value, at least 5 characters. */
  function ValidateSubject(value: string): (v: Verdict)
    ensures v.Valid? <==> |Trim(Python, value)| >= 5
    ensures v.Valid? ==> v.value == Trim(Python, value)
  {
    var stripped := Trim(Python, value);
    if |stripped| < 5 then Invalid(SubjectTooShort) else Valid(stripped)
  }

  /** `validate_message`: the stripped value, at least 10 characters. */
  function ValidateMessage(value: string): (v: Verdict)
    ensures v.Valid? <==> |Trim(Python, value)| >= 10
    ensures v.Valid? ==> v.value == Trim(Python, value)
  {
    var stripped := Trim(Python, value);
    if |stripped| < 10 then Invalid(MessageTooShort) else Valid(stripped)
  }

  /** The subject and message validators can never refuse what their
      fields let through: the field already strips and enforces the same
      minimum, so they return the value unchanged. */
  lemma {:induction false} ShortTextChecksRedundant(subject: string, message: string)
    ensures CharField(subject, 5, 200).Valid? ==>
      ValidateSubject(CharField(subject, 5, 200).value) == CharField(subject, 5, 200)
    ensures CharField(message, 10, 2000).Valid? ==>
      ValidateMessage(CharField(message, 10, 2000).value) == CharField(message, 10, 2000)
  {
    TrimIdempotent(Python, subject);
    TrimIdempotent(Python, message);
  }

  /** What the contact page posts. */
  datatype ContactData = ContactData(name: string, email: string, subject: string, message: string)

  /** One field through its `CharField` and then its validator. */
  function Then(field: Verdict, validator: string -> Verdict): (v: Verdict)
    ensures field.Invalid? ==> v == field
    ensures field.Valid? ==> v == validator(field.value)
  {
    if field.Invalid? then field else validator(field.value)
  }

  /** The `task` field `ModelSerializer` builds from the model's
      `CharField(max_length=200)` with its `MinLengthValidator(3)`: a
      trimming `CharField(min_length=3, max_length=200)` that refuses
      blanks and runs before `validate_task`. */
  function TaskVerdict(raw: string): Verdict {
    Then(CharField(raw, 3, 200), ValidateTask)
  }

  /** What the `task` field passes, `validate_task` returns unchanged. */
  lemma {:induction false} TaskFieldCheckRedundant(raw: string)
    ensures CharField(raw, 3, 200).Valid? ==>
      ValidateTask(CharField(raw, 3, 200).value) == CharField(raw, 3, 200)
  {
    TrimIdempotent(Python, raw);
  }

  /** The field followed by `validate_task` accepts exactly what
      `validate_task` alone accepts, with the same stripped value. */
  lemma {:induction false} TaskVerdictAgrees(raw: string)
    ensures TaskVerdict(raw).Valid? <==> ValidateTask(raw).Valid?
    ensures TaskVerdict(raw).Valid? ==> TaskVerdict(raw).value == ValidateTask(raw).value
  {
    TaskFieldCheckRedundant(raw);
  }

  /** A refused task gets the field's message: the blank message, or the
      framework's own length messages. The two messages of `validate_task`
      never reach the client. */
  lemma {:induction false} TaskRefusalMessages(raw: string)
    ensures AllSpace(Python, raw) ==> TaskVerdict(raw) == Invalid(BlankMessage)
    ensures 0 < |Trim(Python, raw)| < 3 ==> TaskVerdict(raw) == Invalid(MinLengthMessage(3))
    ensures |Trim(Python, raw)| > 200 ==> TaskVerdict(raw) == Invalid(MaxLengthMessage(200))
    ensures TaskVerdict(raw).Invalid? ==>
      TaskVerdict(raw).message != TaskTooShort && TaskVerdict(raw).message != TaskTooLong
  {
    var v := TaskVerdict(raw);
    if v.Invalid? {
      TaskFieldCheckRedundant(raw);
      assert v == CharField(raw, 3, 200);
      FieldMessagesDiffer(v.message);
    }
  }

  /** The field's three refusals all differ from `validate_task`'s messages
      in their second character. */
  lemma FieldMessagesDiffer(m: string)
    requires m == BlankMessage || m == MinLengthMessage(3) || m == MaxLengthMessage(200)
    ensures m != TaskTooShort && m != TaskTooLong
  {
    assert TaskTooShort[1] == 'a' && TaskTooLong[1] == 'a';
    if m == BlankMessage {
      assert m[1] == 'h';
    } else if m == MinLengthMessage(3) {
      SecondCharOfJoin("Ensure this field has at least ", NatToString(3), " characters.");
    } else {
      SecondCharOfJoin("Ensure this field has no more than ", NatToString(200), " characters.");
    }
  }

  lemma SecondCharOfJoin(a: string, b: string, c: string)
    requires |a| > 1
    ensures (a + b + c)[1] == a[1]
  {
    assert (a + b + c)[1] == (a + b)[1];
  }

  function NameVerdict(raw: string): Verdict {
    Then(CharField(raw, 2, 100), ValidateName)
  }

  function SubjectVerdict(raw: string): Verdict {
    Then(CharField(raw, 5, 200), ValidateSubject)
  }

  function MessageVerdict(raw: string): Verdict {
    Then(CharField(raw, 10, 2000), ValidateMessage)
  }

  /** The e-mail field; its validator is library code and its verdict
      comes in as `emailOk`. */
  function EmailVerdict(raw: string, emailOk: bool): Verdict {
    if emailOk then Valid(Trim(Python, raw)) else Invalid("Enter a valid email address.")
  }

  /** Records a refused field's message under its name. */
  function Put(e: map<string, string>, key: string, v: Verdict): map<string, string> {
    if v.Invalid? then e[key := v.message] else e
  }

  /** `serializer.errors` from the four fields' verdicts: one message per
      refused field, under the field's name. */
  function Errors(name: Verdict, email: Verdict, subject: Verdict, message: Verdict): (e: map<string, string>)
    ensures "name" in e <==> name.Invalid?
    ensures "email" in e <==> email.Invalid?
    ensures "subject" in e <==> subject.Invalid?
    ensures "message" in e <==> message.Invalid?
    ensures e == map[] <==> name.Valid? && email.Valid? && subject.Valid? && message.Valid?
  {
    var e := Put(map[], "name", name);
    var e := Put(e, "email", email);
    var e := Put(e, "subject", subject);
    Put(e, "message", message)
  }

  /** The dictionary's keys are field names. */
  lemma {:induction false} ErrorsKeys(name: Verdict, email: Verdict, subject: Verdict, message: Verdict)
    ensures Errors(name, email, subject, message).Keys <= {"name", "email", "subject", "message"}
  {
  }

  function ContactErrors(data: ContactData, emailOk: bool): map<string, string> {
    Errors(NameVerdict(data.name), EmailVerdict(data.email, emailOk),
           SubjectVerdict(data.subject), MessageVerdict(data.message))
  }

  /** `serializer.validated_data` when `is_valid()` holds. */
  function ContactValidated(data: ContactData, emailOk: bool): (v: Option<ContactData>)
    ensures v.Some? <==> ContactErrors(data, emailOk) == map[]
    ensures v.Some? ==> v.value == ContactData(NameVerdict(data.name).value, Trim(Python, data.email),
                                               SubjectVerdict(data.subject).value,
                                               MessageVerdict(data.message).value)
  {
    var e := ContactErrors(data, emailOk);
    if e != map[] then None
    else
      assert "name" !in e && "subject" !in e && "message" !in e;
      Some(ContactData(NameVerdict(data.name).value, Trim(Python, data.email),
                       SubjectVerdict(data.subject).value, MessageVerdict(data.message).value))
  }

  /** What a valid submission stores: a title-cased name of 2..100 letters
      and spaces, and a stripped subject of 5..200 and message of 10..2000
      characters. */
  lemma {:induction false} ContactBounds(data: ContactData, emailOk: bool)
    requires ContactValidated(data, emailOk).Some?
    ensures var v := ContactValidated(data, emailOk).value;
      && 2 <= |v.name| <= 100 && v.name == Title(Trim(Python, data.name))
      && 5 <= |v.subject| <= 200 && Trim(Python, v.subject) == v.subject
      && 10 <= |v.message| <= 2000 && Trim(Python, v.message) == v.message
  {
    var e := ContactErrors(data, emailOk);
    assert "name" !in e && "subject" !in e && "message" !in e;
    NameShape(Trim(Python, data.name));
    ShortTextChecksRedundant(data.subject, data.message);
    TrimIdempotent(Python, data.subject);
    TrimIdempotent(Python, data.message);
  }
}
