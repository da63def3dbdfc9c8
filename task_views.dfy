/** The task endpoints of backend/todolist_app/views.py: the visible rows
    (`get_queryset`), creation on behalf of the requesting user
    (`perform_create`), the two status actions (`mark_complete`,
    `mark_pending`) and the public contact form (`ContactView.post`).

    The database is the `TaskTable` of the task model; a response is its
    status code and a flat body. Every request here comes from an
    authenticated user (the permission check is the framework's). */
module TaskViews {
  import opened Common
  import opened Serializers
  import opened TaskModel

  /** The requesting user: their key and the staff flag. */
  datatype User = User(id: nat, isStaff: bool)

  datatype Response = Response(status: nat, body: map<string, string>)

  const CompletedStatus := "T\U{E2}che termin\U{E9}e"
  const PendingStatus := "T\U{E2}che en attente"
  const ContactSent := "Message envoy\U{E9} avec succ\U{E8}s!"

  /** `get_object`'s miss: a 404 whose body is the framework's. */
  const NotFound := Response(404, map[])

  /** Staff see every row, anyone else the rows they own. */
  predicate Sees(user: User, t: Task) {
    user.isStaff || t.owner == user.id
  }

  /** The filter of `get_queryset`, keeping the table's order. Each row
      stays with its multiplicity exactly when the user sees it. */
  function Visible(rows: seq<Task>, user: User): (r: seq<Task>)
    ensures forall t :: multiset(r)[t] == if Sees(user, t) then multiset(rows)[t] else 0
    ensures forall t :: t in r <==> t in rows && Sees(user, t)
  {
    if rows == [] then []
    else
      var rest := Visible(rows[1..], user);
      assert rows == [rows[0]] + rows[1..];
      if Sees(user, rows[0]) then [rows[0]] + rest else rest
  }

  /** `order_by('-created_at')`. */
  predicate NewestFirst(s: seq<Task>) {
    forall i, j :: 0 <= i < j < |s| ==> s[i].createdAt >= s[j].createdAt
  }

  /** Puts `t` in front of the first row that is not newer than it. */
  function Insert(t: Task, s: seq<Task>): (r: seq<Task>)
    ensures multiset(r) == multiset(s) + multiset{t}
  {
    if s == [] || t.createdAt >= s[0].createdAt then
      [t] + s
    else
      assert s == [s[0]] + s[1..];
      [s[0]] + Insert(t, s[1..])
  }

  lemma {:induction false} InsertKeepsOrder(t: Task, s: seq<Task>)
    requires NewestFirst(s)
    ensures NewestFirst(Insert(t, s))
  {
    if s == [] || t.createdAt >= s[0].createdAt {
    } else {
      var rest := Insert(t, s[1..]);
      InsertKeepsOrder(t, s[1..]);
      forall j | 0 <= j < |rest| ensures s[0].createdAt >= rest[j].createdAt {
        assert rest[j] in multiset(s[1..]) + multiset{t};
        if rest[j] != t {
          assert rest[j] in s[1..];
        }
      }
    }
  }

  /** Sorts newest first; rows created at the same instant keep their
      table order. */
  function SortNewest(s: seq<Task>): (r: seq<Task>)
    ensures multiset(r) == multiset(s)
    ensures NewestFirst(r)
  {
    if s == [] then []
    else
      assert s == [s[0]] + s[1..];
      InsertKeepsOrder(s[0], SortNewest(s[1..]));
      Insert(s[0], SortNewest(s[1..]))
  }

  /** `get_queryset`. */
  function Queryset(rows: seq<Task>, user: User): seq<Task> {
    SortNewest(Visible(rows, user))
  }

  /** The queryset is ordered newest first and holds exactly the rows the
      user sees, each as often as the table does: all of them for staff,
      the user's own otherwise. */
  lemma {:induction false} QuerysetSpec(rows: seq<Task>, user: User)
    ensures NewestFirst(Queryset(rows, user))
    ensures forall t :: multiset(Queryset(rows, user))[t] ==
                        if user.isStaff || t.owner == user.id then multiset(rows)[t] else 0
    ensures forall t :: t in Queryset(rows, user) <==> t in rows && (user.isStaff || t.owner == user.id)
    ensures user.isStaff ==> multiset(Queryset(rows, user)) == multiset(rows)
  {
    var q := Queryset(rows, user);
    forall t ensures t in q <==> t in rows && Sees(user, t) {
      assert t in q <==> t in multiset(q);
    }
    if user.isStaff {
      assert forall t :: multiset(q)[t] == multiset(rows)[t];
    }
  }

  /** `get_object`: the row with key `pk` among those the user sees. */
  function Find(rows: seq<Task>, user: User, pk: nat, from: nat): (r: Option<nat>)
    requires from <= |rows|
    decreases |rows| - from
    ensures r.Some? ==> from <= r.value < |rows| && rows[r.value].id == pk && Sees(user, rows[r.value])
    ensures r.None? <==> forall i :: from <= i < |rows| ==> !(rows[i].id == pk && Sees(user, rows[i]))
  {
    if from == |rows| then None
    else if rows[from].id == pk && Sees(user, rows[from]) then Some(from)
    else Find(rows, user, pk, from + 1)
  }

  /** The table after a status action on `pk`: the row found gets the new
      flag and is saved back under its key; a miss changes nothing. */
  function Marked(rows: seq<Task>, user: User, pk: nat, done: bool): seq<Task> {
    match Find(rows, user, pk, 0)
    case None => rows
    case Some(i) => Replace(rows, rows[i].(done := done))
  }

  predicate DistinctKeys(rows: seq<Task>) {
    forall i, j :: 0 <= i < j < |rows| ==> rows[i].id != rows[j].id
  }

  /** A status action sets the flag of the one row with key `pk` that the
      user sees, and nothing else: the text, owner, key and creation instant
      of every row stay, and so do the other rows' flags. In particular a
      user who is not staff cannot touch a row of someone else. */
  lemma {:induction false} MarkedEffect(rows: seq<Task>, user: User, pk: nat, done: bool)
    requires DistinctKeys(rows)
    ensures var r := Marked(rows, user, pk, done);
      && |r| == |rows|
      && (forall i :: 0 <= i < |rows| ==>
            r[i] == if rows[i].id == pk && Sees(user, rows[i]) then rows[i].(done := done) else rows[i])
  {
    var r := Marked(rows, user, pk, done);
    var k := Find(rows, user, pk, 0);
    if k.Some? {
      forall i | 0 <= i < |rows|
        ensures r[i] == if rows[i].id == pk && Sees(user, rows[i]) then rows[i].(done := done) else rows[i]
      {
        if i != k.value {
          assert rows[i].id != rows[k.value].id;
        }
      }
    }
  }

  /** Marking twice leaves the table as marking once. */
  lemma {:induction false} MarkedIdempotent(rows: seq<Task>, user: User, pk: nat, done: bool)
    requires DistinctKeys(rows)
    ensures Marked(Marked(rows, user, pk, done), user, pk, done) == Marked(rows, user, pk, done)
  {
    var r := Marked(rows, user, pk, done);
    MarkedEffect(rows, user, pk, done);
    assert DistinctKeys(r) by {
      forall i, j | 0 <= i < j < |r| ensures r[i].id != r[j].id {
        assert r[i].id == rows[i].id && r[j].id == rows[j].id;
      }
    }
    MarkedEffect(r, user, pk, done);
    var rr := Marked(r, user, pk, done);
    forall i | 0 <= i < |r| ensures rr[i] == r[i] {
      assert r[i].id == rows[i].id && r[i].owner == rows[i].owner;
    }
  }

  /** `mark_complete` and `mark_pending`: `get_object`, then the flag is
      set on the loaded instance and `save` (with its `full_clean`) writes
      it back; a row the user does not see is a 404. */
  method SetDone(table: TaskTable, user: User, pk: nat, done: bool, message: string) returns (resp: Response)
    requires table.Valid()
    modifies table
    ensures table.Valid() && table.nextId == old(table.nextId)
    ensures table.rows == Marked(old(table.rows), user, pk, done)
    ensures resp == if Find(old(table.rows), user, pk, 0).Some? then Response(200, map["status" := message]) else NotFound
  {
    var rows := table.rows;
    var k := Find(rows, user, pk, 0);
    if k.None? {
      return NotFound;
    }
    var t := rows[k.value];
    var instance := new TaskRow(t.owner, t.task, t.createdAt);
    instance.id, instance.done := Some(t.id), done;
    AcceptableIsStored(t.task);
    var ok := instance.Save(table);
    assert ok;
    assert rows[k.value].id == t.id;
    resp := Response(200, map["status" := message]);
  }

  method MarkComplete(table: TaskTable, user: User, pk: nat) returns (resp: Response)
    requires table.Valid()
    modifies table
    ensures table.Valid() && table.nextId == old(table.nextId)
    ensures table.rows == Marked(old(table.rows), user, pk, true)
    ensures resp == if Find(old(table.rows), user, pk, 0).Some? then Response(200, map["status" := CompletedStatus]) else NotFound
  {
    resp := SetDone(table, user, pk, true, CompletedStatus);
  }

  method MarkPending(table: TaskTable, user: User, pk: nat) returns (resp: Response)
    requires table.Valid()
    modifies table
    ensures table.Valid() && table.nextId == old(table.nextId)
    ensures table.rows == Marked(old(table.rows), user, pk, false)
    ensures resp == if Find(old(table.rows), user, pk, 0).Some? then Response(200, map["status" := PendingStatus]) else NotFound
  {
    resp := SetDone(table, user, pk, false, PendingStatus);
  }

  /** Whatever the serializer accepted is accepted again by the model's
      `full_clean`, unchanged. */
  lemma {:induction false} SerializerTextIsStored(raw: string)
    requires TaskVerdict(raw).Valid?
    ensures StoredText(TaskVerdict(raw).value)
    ensures Acceptable(TaskVerdict(raw).value) && Cleaned(TaskVerdict(raw).value) == TaskVerdict(raw).value
  {
    TaskVerdictAgrees(raw);
    var text := Trim(Python, raw);
    assert ValidateTask(raw).value == text && 3 <= |text| <= 200;
    assert StoredText(text);
    AcceptableIsStored(text);
  }

  /** `perform_create`: the serializer's validated data (the stripped text,
      and the flag, false when not sent) is saved as a new row owned by the
      requesting user. */
  method PerformCreate(table: TaskTable, user: User, raw: string, done: Option<bool>, now: int) returns (id: nat)
    requires table.Valid()
    requires TaskVerdict(raw).Valid? && ValidateData(TaskData(Some(TaskVerdict(raw).value), done)).None?
    modifies table
    ensures table.Valid()
    ensures id == old(table.nextId) && table.nextId == id + 1
    ensures table.rows == old(table.rows) + [Task(id, user.id, TaskVerdict(raw).value, done == Some(true), now)]
  {
    var text := TaskVerdict(raw).value;
    SerializerTextIsStored(raw);
    var created := Create(table, user.id, text, done == Some(true), now);
    id := created.value;
  }

  /** The row just created is in its owner's list. */
  lemma {:induction false} CreatedTaskVisible(rows: seq<Task>, t: Task, user: User)
    requires t.owner == user.id
    ensures t in Queryset(rows + [t], user)
  {
    QuerysetSpec(rows + [t], user);
    assert (rows + [t])[|rows|] == t;
  }

  /** The message `send_mail` would send. */
  datatype Mail = Mail(subject: string, body: string, sender: string, recipients: seq<string>)

  /** What `ContactView.post` does: the response, and the mail it tried to
      send. `admin` is the configured default sender, who is also the
      recipient; `emailOk` is the e-mail field's validator; `mailError` is
      what the mail backend raised, if anything. */
  datatype ContactOutcome = ContactOutcome(response: Response, mail: Option<Mail>)

  function ContactMail(v: ContactData, admin: string): Mail {
    Mail("Contact Form: " + v.subject, "From: " + v.name + " <" + v.email + ">\n\nMessage:\n" + v.message,
      admin, [admin])
  }

  /** The branches of `post` once `is_valid()` has run: the serializer's
      errors as a 400 with no mail, or the mail, then a 200 or, when sending
      raised, a 500 carrying the exception's text. */
  function Respond(validated: Option<ContactData>, errors: map<string, string>, admin: string,
                   mailError: Option<string>): (r: ContactOutcome)
    ensures r.mail.None? <==> validated.None?
    ensures r.mail.Some? ==> r.mail.value == ContactMail(validated.value, admin)
    ensures r.response.status in {200, 400, 500}
    ensures r.response.status == 400 <==> validated.None?
    ensures r.response.status == 400 ==> r.response.body == errors
    ensures r.response.status == 200 <==> validated.Some? && mailError.None?
    ensures r.response.status == 200 ==> r.response.body == map["success" := ContactSent]
    ensures r.response.status == 500 ==> r.response.body == map["error" := mailError.value]
  {
    match validated
    case None => ContactOutcome(Response(400, errors), None)
    case Some(v) =>
      var mail := ContactMail(v, admin);
      match mailError
      case None => ContactOutcome(Response(200, map["success" := ContactSent]), Some(mail))
      case Some(e) => ContactOutcome(Response(500, map["error" := e]), Some(mail))
  }

  /** `ContactView.post`: nothing is mailed unless the serializer accepts
      the data, and then the mail carries its validated values. */
  function ContactPost(data: ContactData, emailOk: bool, admin: string, mailError: Option<string>): (r: ContactOutcome)
    ensures r.mail.None? <==> ContactErrors(data, emailOk) != map[]
    ensures r.response.status == 400 ==> r.response.body == ContactErrors(data, emailOk)
    ensures r.mail.Some? ==> r.mail.value == ContactMail(ContactValidated(data, emailOk).value, admin)
  {
    Respond(ContactValidated(data, emailOk), ContactErrors(data, emailOk), admin, mailError)
  }

  /** The mail's subject line is the prefix and the stripped subject, so
      between 19 and 214 characters, and its sender is the recipient. */
  lemma {:induction false} ContactMailShape(data: ContactData, emailOk: bool, admin: string, mailError: Option<string>)
    requires ContactPost(data, emailOk, admin, mailError).mail.Some?
    ensures var m := ContactPost(data, emailOk, admin, mailError).mail.value;
      && m.subject[..14] == "Contact Form: "
      && 19 <= |m.subject| <= 214
      && m.recipients == [m.sender]
  {
    var v := ContactValidated(data, emailOk).value;
    SubjectBound(data, emailOk);
    var prefix := "Contact Form: ";
    var m := ContactMail(v, admin);
    assert m.subject == prefix + v.subject;
  }

  /** A validated subject keeps the field's bounds of 5 to 200 characters. */
  lemma SubjectBound(data: ContactData, emailOk: bool)
    requires ContactValidated(data, emailOk).Some?
    ensures 5 <= |ContactValidated(data, emailOk).value.subject| <= 200
  {
    ContactBounds(data, emailOk);
  }
}
