/** The task model (backend/todolist_app/models.py): the `TaskList` row,
    its field constraints, `clean` (strip, then the three-character rule),
    `save` (which always runs `full_clean` first), `__str__` and
    `is_overdue`. The database is an in-memory table of rows.

    `full_clean` is Django's: the field validators run on the value as it
    stands (non-blank, 3..200 characters), then `clean` runs whatever they
    said, and the instance is refused when either complained. */
module TaskModel {
  import opened Common

  const MinTaskLength := 3
  const MaxTaskLength := 200
  const TaskTooShort := "Task must be at least 3 characters long"
  const DoneMark := "\U{2705} Done"
  const PendingMark := "\U{23F3} Pending"

  /** A stored row: its key, its owner's key, the text, the flag and the
      creation instant (as a number: only its order matters). */
  datatype Task = Task(id: nat, owner: nat, task: string, done: bool, createdAt: int)

  /** The field validators of `task`: non-blank, at least 3 and at most 200
      characters, all on the value before `clean` strips it. */
  predicate FieldsValid(text: string) {
    text != "" && MinTaskLength <= |text| <= MaxTaskLength
  }

  /** `clean`'s first step: a non-empty text is stripped. */
  function Cleaned(text: string): (r: string)
    ensures r == Trim(Python, text)
  {
    if text != "" then Trim(Python, text) else text
  }

  /** What `full_clean` accepts: the field validators pass on the text as
      given and the stripped text keeps three characters. */
  predicate Acceptable(text: string) {
    FieldsValid(text) && |Cleaned(text)| >= MinTaskLength
  }

  /** A text that can be in the table: no whitespace at either end (what
      stripping leaves) and 3..200 characters long. */
  predicate StoredText(text: string) {
    MinTaskLength <= |text| <= MaxTaskLength && !IsSpace(Python, text[0]) && !IsSpace(Python, text[|text| - 1])
  }

  predicate Stored(t: Task) {
    StoredText(t.task)
  }

  /** What `full_clean` leaves is storable; a text already storable passes
      again unchanged, so saving a stored row again never fails. */
  lemma {:induction false} AcceptableIsStored(text: string)
    ensures Acceptable(text) ==> StoredText(Cleaned(text))
    ensures StoredText(text) ==> Acceptable(text) && Cleaned(text) == text
  {
    if StoredText(text) {
      TrimOfTrimmed(Python, text);
    }
  }

  /** Two spaces around a two-letter text pass the field validators but not
      `clean`: the minimum is checked again after stripping. */
  lemma {:induction false} PaddedShortTextRefused(a: char, b: char)
    requires !IsSpace(Python, a) && !IsSpace(Python, b)
    ensures FieldsValid(" " + [a, b] + " ") && !Acceptable(" " + [a, b] + " ")
  {
    var text := " " + [a, b] + " ";
    assert |text| == 4 && text != "";
    assert AllSpace(Python, " ");
    TrimPadded(Python, " ", [a, b], " ");
    assert Cleaned(text) == [a, b];
  }

  /** The same holds with the separators U+001C to U+001F as padding, which
      Python's `strip` removes. */
  lemma SeparatorPaddedTextRefused(c: char, a: char, b: char, d: char)
    requires '\U{1C}' <= c <= '\U{1F}' && '\U{1C}' <= d <= '\U{1F}'
    requires !IsSpace(Python, a) && !IsSpace(Python, b)
    ensures FieldsValid([c] + [a, b] + [d]) && !Acceptable([c] + [a, b] + [d])
  {
    var text := [c] + [a, b] + [d];
    assert |text| == 4 && text != "";
    SeparatorsStrippedOnlyByPython(c, [a, b], d);
    assert Cleaned(text) == [a, b];
  }

  /** `__str__`: up to thirty characters of the text, then "... - " and the
      status mark. */
  function Describe(t: Task): string {
    var shown := if |t.task| < 30 then t.task else t.task[..30];
    shown + "... - " + (if t.done then DoneMark else PendingMark)
  }

  /** The string starts with the text's first thirty characters (all of a
      shorter text) and ends with the done mark exactly when the task is
      done. */
  lemma {:induction false} DescribeParts(t: Task)
    ensures var s := Describe(t);
      var n := if |t.task| < 30 then |t.task| else 30;
      && |s| == n + 6 + (if t.done then |DoneMark| else |PendingMark|)
      && s[..n] == t.task[..n]
      && (s[|s| - |DoneMark|..] == DoneMark <==> t.done)
  {
    var s := Describe(t);
    var n := if |t.task| < 30 then |t.task| else 30;
    var mark := if t.done then DoneMark else PendingMark;
    assert s == t.task[..n] + "... - " + mark;
    assert s[|s| - |mark|..] == mark;
    if !t.done {
      assert s[|s| - |DoneMark|..][0] == PendingMark[3] != DoneMark[0];
    }
  }

  /** The words the model test looks for are never there: for a short text
      without a capital T or E, as the test's "Buy milk", the string
      mentions neither "Terminée" nor "En attente", whatever the status. */
  lemma {:induction false} DescribeMissesTestWording(t: Task)
    requires |t.task| < 30 && 'T' !in t.task && 'E' !in t.task
    ensures !Contains(Describe(t), "Termin\U{E9}e") && !Contains(Describe(t), "En attente")
  {
    var mark := if t.done then DoneMark else PendingMark;
    var s := t.task + ("... - " + mark);
    assert Describe(t) == s;
    assert 'T' !in "... - " && 'E' !in "... - ";
    assert 'T' !in mark && 'E' !in mark;
    ContainsNeedsChar(s, "Termin\U{E9}e", 'T');
    ContainsNeedsChar(s, "En attente", 'E');
  }

  /** The test's own task qualifies. */
  lemma BuyMilkQualifies()
    ensures |"Buy milk"| < 30 && 'T' !in "Buy milk" && 'E' !in "Buy milk"
  {
  }

  /** `is_overdue`: a placeholder, false for every row. */
  function IsOverdue(t: Task): (r: bool)
    ensures !r
  {
    false
  }

  /** The table: rows in insertion order, and the next key to hand out. */
  class TaskTable {
    var rows: seq<Task>
    var nextId: nat

    /** Every row is storable, keys are below `nextId` and distinct. */
    predicate Valid()
      reads this
    {
      && (forall i :: 0 <= i < |rows| ==> Stored(rows[i]) && rows[i].id < nextId)
      && (forall i, j :: 0 <= i < j < |rows| ==> rows[i].id != rows[j].id)
    }

    constructor ()
      ensures rows == [] && nextId == 1 && Valid()
    {
      rows, nextId := [], 1;
    }
  }

  /** A model instance in memory: the fields `clean` and `save` work on. */
  class TaskRow {
    var id: Option<nat>
    var owner: nat
    var task: string
    var done: bool
    var createdAt: int

    /** A new, unsaved instance; `done` defaults to false. */
    constructor (owner: nat, task: string, createdAt: int)
      ensures this.id == None && this.owner == owner && this.task == task
      ensures !this.done && this.createdAt == createdAt
    {
      this.id, this.owner, this.task, this.done, this.createdAt := None, owner, task, false, createdAt;
    }

    /** `clean`: strips a non-empty text in place, then refuses a text of
        fewer than three characters. */
    method Clean() returns (error: Option<string>)
      modifies this
      ensures task == Cleaned(old(task))
      ensures error.Some? <==> |task| < MinTaskLength
      ensures error.Some? ==> error.value == TaskTooShort
      ensures id == old(id) && owner == old(owner) && done == old(done) && createdAt == old(createdAt)
    {
      var text := task;
      if text != "" {
        text := Trim(Python, text);
      }
      task := text;
      error := None;
      if |text| < MinTaskLength {
        error := Some(TaskTooShort);
      }
    }

    /** `full_clean`: the field validators, then `clean`, which runs (and
        strips) even after a field error. */
    method FullClean() returns (ok: bool)
      modifies this
      ensures ok <==> Acceptable(old(task))
      ensures task == Cleaned(old(task))
      ensures id == old(id) && owner == old(owner) && done == old(done) && createdAt == old(createdAt)
    {
      var fieldsOk := FieldsValid(task);
      var error := Clean();
      ok := fieldsOk && error.None?;
    }

    /** `save`: `full_clean` first; only an accepted instance reaches the
        table, as a new row under the next key, or under its own key in
        place of the row that has it (added when no row has it). */
    method Save(table: TaskTable) returns (ok: bool)
      requires table.Valid()
      requires id.Some? ==> id.value < table.nextId
      modifies this, table
      ensures table.Valid()
      ensures ok <==> Acceptable(old(task))
      ensures task == Cleaned(old(task))
      ensures owner == old(owner) && done == old(done) && createdAt == old(createdAt)
      ensures !ok ==> table.rows == old(table.rows) && table.nextId == old(table.nextId) && id == old(id)
      ensures ok && old(id).None? ==>
        && id == Some(old(table.nextId)) && table.nextId == old(table.nextId) + 1
        && table.rows == old(table.rows) + [Task(id.value, owner, task, done, createdAt)]
      ensures ok && old(id).Some? ==>
        id == old(id) && table.nextId == old(table.nextId)
        && table.rows == Upsert(old(table.rows), Task(id.value, owner, task, done, createdAt))
    {
      ok := FullClean();
      if ok {
        AcceptableIsStored(old(task));
        Store(table);
      }
    }

    /** The write itself, for an instance `full_clean` accepted: an INSERT
        under the next key, or Django's UPDATE-or-INSERT under its own. */
    method Store(table: TaskTable)
      requires table.Valid() && StoredText(task)
      requires id.Some? ==> id.value < table.nextId
      modifies this`id, table
      ensures table.Valid()
      ensures old(id).None? ==>
        && id == Some(old(table.nextId)) && table.nextId == old(table.nextId) + 1
        && table.rows == old(table.rows) + [Task(id.value, owner, task, done, createdAt)]
      ensures old(id).Some? ==>
        id == old(id) && table.nextId == old(table.nextId)
        && table.rows == Upsert(old(table.rows), Task(id.value, owner, task, done, createdAt))
    {
      var rows, nextId := table.rows, table.nextId;
      if id.None? {
        var row := Task(nextId, owner, task, done, createdAt);
        AppendKeepsTable(rows, row, nextId + 1);
        id := Some(nextId);
        table.rows, table.nextId := rows + [row], nextId + 1;
      } else {
        var row := Task(id.value, owner, task, done, createdAt);
        UpsertKeepsTable(rows, row, nextId);
        table.rows := Upsert(rows, row);
      }
    }
  }

  /** `TaskList.objects.create(...)`: a new instance with the given fields,
      saved at once; `None` where the save raises a validation error. */
  method Create(table: TaskTable, owner: nat, text: string, done: bool, createdAt: int) returns (id: Option<nat>)
    requires table.Valid()
    modifies table
    ensures table.Valid()
    ensures id.Some? <==> Acceptable(text)
    ensures id.None? ==> table.rows == old(table.rows) && table.nextId == old(table.nextId)
    ensures id.Some? ==>
      && id.value == old(table.nextId) && table.nextId == id.value + 1
      && table.rows == old(table.rows) + [Task(id.value, owner, Cleaned(text), done, createdAt)]
  {
    var instance := new TaskRow(owner, text, createdAt);
    instance.done := done;
    var ok := instance.Save(table);
    id := if ok then instance.id else None;
  }

  /** An UPDATE of the row with `t`'s key; the other rows are left alone. */
  function Replace(rows: seq<Task>, t: Task): (r: seq<Task>)
    ensures |r| == |rows|
    ensures forall i :: 0 <= i < |rows| ==> r[i] == if rows[i].id == t.id then t else rows[i]
  {
    if rows == [] then []
    else [if rows[0].id == t.id then t else rows[0]] + Replace(rows[1..], t)
  }

  /** Django's save of an instance with a key: an UPDATE of the row with
      that key, or an INSERT when there is none. */
  function Upsert(rows: seq<Task>, t: Task): (r: seq<Task>)
    ensures (exists i :: 0 <= i < |rows| && rows[i].id == t.id) ==> r == Replace(rows, t)
    ensures (forall i :: 0 <= i < |rows| ==> rows[i].id != t.id) ==> r == rows + [t]
  {
    if exists i :: 0 <= i < |rows| && rows[i].id == t.id then Replace(rows, t) else rows + [t]
  }

  /** Updating a row of a valid table with a storable row under a key
      below `nextId` keeps the table valid. */
  lemma {:induction false} ReplaceKeepsTable(rows: seq<Task>, t: Task, nextId: nat)
    requires forall i :: 0 <= i < |rows| ==> Stored(rows[i]) && rows[i].id < nextId
    requires forall i, j :: 0 <= i < j < |rows| ==> rows[i].id != rows[j].id
    requires Stored(t) && t.id < nextId
    ensures var r := Replace(rows, t);
      && (forall i :: 0 <= i < |r| ==> Stored(r[i]) && r[i].id < nextId)
      && (forall i, j :: 0 <= i < j < |r| ==> r[i].id != r[j].id)
  {
    var r := Replace(rows, t);
    forall i, j | 0 <= i < j < |r| ensures r[i].id != r[j].id {
      assert r[i].id == rows[i].id && r[j].id == rows[j].id;
    }
  }

  /** Adding a storable row whose key is below `nextId` and unused keeps
      the table valid. */
  lemma {:induction false} AppendKeepsTable(rows: seq<Task>, t: Task, nextId: nat)
    requires forall i :: 0 <= i < |rows| ==> Stored(rows[i]) && rows[i].id < nextId
    requires forall i, j :: 0 <= i < j < |rows| ==> rows[i].id != rows[j].id
    requires Stored(t) && t.id < nextId
    requires forall i :: 0 <= i < |rows| ==> rows[i].id != t.id
    ensures var r := rows + [t];
      && (forall i :: 0 <= i < |r| ==> Stored(r[i]) && r[i].id < nextId)
      && (forall i, j :: 0 <= i < j < |r| ==> r[i].id != r[j].id)
  {
    var r := rows + [t];
    forall i, j | 0 <= i < j < |r| ensures r[i].id != r[j].id {
      if j == |rows| {
        assert r[i] == rows[i];
      } else {
        assert r[i] == rows[i] && r[j] == rows[j];
      }
    }
  }

  /** So does Django's save under an existing key, whichever of the two it
      does. */
  lemma {:induction false} UpsertKeepsTable(rows: seq<Task>, t: Task, nextId: nat)
    requires forall i :: 0 <= i < |rows| ==> Stored(rows[i]) && rows[i].id < nextId
    requires forall i, j :: 0 <= i < j < |rows| ==> rows[i].id != rows[j].id
    requires Stored(t) && t.id < nextId
    ensures var r := Upsert(rows, t);
      && (forall i :: 0 <= i < |r| ==> Stored(r[i]) && r[i].id < nextId)
      && (forall i, j :: 0 <= i < j < |r| ==> r[i].id != r[j].id)
  {
    if exists i :: 0 <= i < |rows| && rows[i].id == t.id {
      ReplaceKeepsTable(rows, t, nextId);
    } else {
      AppendKeepsTable(rows, t, nextId);
    }
  }
}
