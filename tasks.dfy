/** `TasksViewModel`: the task codec, the parse of the `tasks` snapshot, the
    search/filter/sort projection shown by the task list, and the mutations
    that write to the `tasks` path. */
module Tasks {
  import opened Wire
  import opened Models
  import opened Seqs
  import opened Text
  import opened Store

  // ------------------------------------------------------------------
  // Codec

  /** Seconds from 1970-01-01 to 2001-01-01, the reference date of `Date`. */
  const ReferenceDateOffset := 978307200

  /** The fields `JSONEncoder` produces for a task whose due date is written as
      the number `wireDate`; a nil id is omitted. */
  function TaskFields(t: Task, wireDate: int): Fields
  {
    var fields := map[
      "title" := Str(t.title),
      "description" := Str(t.description),
      "dueDate" := Num(wireDate),
      "status" := Str(t.status.RawValue()),
      "assignedUserIds" := StringArray(t.assignedUserIds)];
    if t.id.Some? then fields["id" := Str(t.id.value)] else fields
  }

  /** `addTask`'s encoding as written: `JSONEncoder()` keeps its default date
      strategy, which writes seconds since 2001-01-01. */
  function EncodeTaskAsWritten(t: Task): (r: Fields)
    ensures "dueDate" in r && r["dueDate"] == Num(t.dueDate - ReferenceDateOffset)
    ensures "id" in r <==> t.id.Some?
  {
    TaskFields(t, t.dueDate - ReferenceDateOffset)
  }

  /** The encoding `addTask` evidently intends: seconds since 1970-01-01, the
      strategy `parseTasks` decodes with. */
  function EncodeTask(t: Task): (r: Fields)
    ensures "dueDate" in r && r["dueDate"] == Num(t.dueDate)
    ensures "id" in r <==> t.id.Some?
  {
    TaskFields(t, t.dueDate)
  }

  /** A `Task.Status` read from its raw value; a string no case has is corrupted data. */
  function DecodeStatus(raw: string): (r: Result<Status, DecodeError>)
    ensures r.Ok? <==> ParseStatus(raw).Some?
    ensures r.Ok? ==> r.value.RawValue() == raw
  {
    match ParseStatus(raw)
    case Some(s) => Ok(s)
    case None => Err(DataCorrupted("status"))
  }

  /** `JSONDecoder().decode(Task.self, ...)` under `.secondsSince1970`: the
      properties are decoded in declaration order and the first failure is
      thrown; keys the type does not have are ignored. */
  function DecodeTask(fields: Fields): (r: Result<Task, DecodeError>)
    ensures r.Ok? ==>
      && "title" in fields && fields["title"] == Str(r.value.title)
      && "description" in fields && fields["description"] == Str(r.value.description)
      && "dueDate" in fields && fields["dueDate"] == Num(r.value.dueDate)
      && "status" in fields && fields["status"] == Str(r.value.status.RawValue())
      && "assignedUserIds" in fields && fields["assignedUserIds"] == StringArray(r.value.assignedUserIds)
    ensures r.Ok? ==> (r.value.id.None? <==> "id" !in fields || fields["id"].Null?)
    ensures r.Ok? && r.value.id.Some? ==> "id" in fields && fields["id"] == Str(r.value.id.value)
    ensures r.Ok? <==>
      && ("id" !in fields || fields["id"].Null? || fields["id"].Str?)
      && StringField(fields, "title").Some?
      && StringField(fields, "description").Some?
      && NumberField(fields, "dueDate").Some?
      && StringField(fields, "status").Some?
      && ParseStatus(fields["status"].s).Some?
      && "assignedUserIds" in fields && fields["assignedUserIds"].Arr?
      && AllStrings(fields["assignedUserIds"].items).Some?
  {
    var id :- DecodeOptionalString(fields, "id");
    var title :- DecodeString(fields, "title");
    var description :- DecodeString(fields, "description");
    var dueDate :- DecodeDate(fields, "dueDate");
    var raw :- DecodeString(fields, "status");
    var status :- DecodeStatus(raw);
    var assignees :- DecodeStringArray(fields, "assignedUserIds");
    Ok(Task(id, title, description, dueDate, status, assignees))
  }

  /** Decoding undoes the intended encoding: every field of a task, its id
      included, is read back as it was written. */
  lemma DecodeEncodeTask(t: Task)
    ensures DecodeTask(EncodeTask(t)) == Ok(t)
  {
    StringArrayRoundTrip(t.assignedUserIds);
    StatusRawValueRoundTrip(t.status);
  }

  /** As written, a task read back is due 978307200 seconds (31 years)
      earlier than the task that was written. */
  lemma AsWrittenDueDateShift(t: Task)
    ensures DecodeTask(EncodeTaskAsWritten(t)) == Ok(t.(dueDate := t.dueDate - ReferenceDateOffset))
    ensures DecodeTask(EncodeTaskAsWritten(t)) != Ok(t)
  {
    StringArrayRoundTrip(t.assignedUserIds);
    StatusRawValueRoundTrip(t.status);
  }

  /** As written, every active task due less than 31 years from now is read
      back as overdue, however far in the future it is due: the shift moves
      it 978307200 seconds into the past. */
  lemma AsWrittenTaskLooksOverdue(t: Task, now: int)
    requires t.status == Active && t.dueDate < now + ReferenceDateOffset
    ensures IsOverdue(DecodeTask(EncodeTaskAsWritten(t)).value, now)
  {
    AsWrittenDueDateShift(t);
  }

  // ------------------------------------------------------------------
  // Parsing a snapshot of the `tasks` path

  /** What `parseTasks`'s closure does with the child `v` under `key`: skip a
      non-dictionary, throw a decode error, or keep the task with its id set
      to the key. */
  function TaskEntry(key: string, v: Value): Entry<Task>
  {
    if !v.Dict? then Skip
    else match DecodeTask(v.fields)
      case Err(e) => Throw(e)
      case Ok(t) => Keep(t.(id := Some(key)))
  }

  /** `t` is the task stored under `key` in the snapshot, with the key as its id. */
  predicate ReadFrom(snapshot: Value, key: string, t: Task)
  {
    && snapshot.Dict? && key in snapshot.fields && snapshot.fields[key].Dict?
    && DecodeTask(snapshot.fields[key].fields).Ok?
    && t == DecodeTask(snapshot.fields[key].fields).value.(id := Some(key))
  }

  /** No two tasks share an id. */
  predicate DistinctIds(ts: seq<Task>)
  {
    forall i, j :: 0 <= i < j < |ts| ==> ts[i].id != ts[j].id
  }

  lemma DistinctIdsCons(t: Task, ts: seq<Task>)
    requires DistinctIds(ts)
    requires forall y :: y in ts ==> y.id != t.id
    ensures DistinctIds([t] + ts)
  {
    var r := [t] + ts;
    forall i, j | 0 <= i < j < |r| ensures r[i].id != r[j].id {
      assert r[j] == ts[j - 1];
      if i == 0 {
        assert r[j] in ts;
      } else {
        assert r[i] == ts[i - 1];
      }
    }
  }

  /** The tasks kept from children other than `key` never carry `key` as id. */
  lemma KeptIdsAvoid(fields: Fields, order: seq<string>, key: string)
    requires forall k :: k in order ==> k in fields
    requires key !in order
    ensures var r := CompactMap(fields, order, TaskEntry);
      r.Ok? ==> forall y :: y in r.value ==> y.id != Some(key)
  {
    var r := CompactMap(fields, order, TaskEntry);
    if r.Ok? {
      forall y | y in r.value ensures y.id != Some(key) {
        var i :| 0 <= i < |order| && TaskEntry(order[i], fields[order[i]]) == Keep(y);
        assert y.id == Some(order[i]);
      }
    }
  }

  /** Whatever the order, no two tasks of a parse share an id. */
  lemma {:induction false} ParsedIdsDistinct(fields: Fields, order: seq<string>)
    requires forall k :: k in order ==> k in fields
    requires Distinct(order)
    ensures var r := CompactMap(fields, order, TaskEntry); r.Ok? ==> DistinctIds(r.value)
    decreases |order|
  {
    if order != [] {
      var tail := order[1..];
      DistinctTail(order);
      ParsedIdsDistinct(fields, tail);
      var e := TaskEntry(order[0], fields[order[0]]);
      var rest := CompactMap(fields, tail, TaskEntry);
      if e.Keep? && rest.Ok? {
        KeptIdsAvoid(fields, tail, order[0]);
        DistinctIdsCons(e.record, rest.value);
      }
    }
  }

  /** The closure throws on some child exactly when some dictionary child
      fails to decode. */
  lemma TaskParseThrows(fields: Fields, order: seq<string>)
    requires Enumerates(order, fields)
    ensures CompactMap(fields, order, TaskEntry).Err? <==>
      exists k :: k in fields && fields[k].Dict? && DecodeTask(fields[k].fields).Err?
  {
    var r := CompactMap(fields, order, TaskEntry);
    if r.Err? {
      var i :| 0 <= i < |order| && TaskEntry(order[i], fields[order[i]]).Throw?;
      assert order[i] in fields;
    }
    if exists k :: k in fields && fields[k].Dict? && DecodeTask(fields[k].fields).Err? {
      var k :| k in fields && fields[k].Dict? && DecodeTask(fields[k].fields).Err?;
      assert k in order;
      var i :| 0 <= i < |order| && order[i] == k;
      assert TaskEntry(order[i], fields[order[i]]).Throw?;
    }
  }

  /** A successful parse holds exactly the stored tasks, each under its key. */
  lemma TaskParseContents(fields: Fields, order: seq<string>)
    requires Enumerates(order, fields)
    ensures var r := CompactMap(fields, order, TaskEntry);
      r.Ok? ==> forall t :: t in r.value ==> t.id.Some? && ReadFrom(Dict(fields), t.id.value, t)
    ensures var r := CompactMap(fields, order, TaskEntry);
      r.Ok? ==> forall k :: k in fields && fields[k].Dict? ==> exists t :: t in r.value && t.id == Some(k)
  {
    var r := CompactMap(fields, order, TaskEntry);
    if r.Ok? {
      forall t | t in r.value ensures t.id.Some? && ReadFrom(Dict(fields), t.id.value, t) {
        var i :| 0 <= i < |order| && TaskEntry(order[i], fields[order[i]]) == Keep(t);
      }
      forall k | k in fields && fields[k].Dict? ensures exists t :: t in r.value && t.id == Some(k) {
        assert k in order;
        var i :| 0 <= i < |order| && order[i] == k;
        var t := TaskEntry(order[i], fields[order[i]]).record;
        assert t in r.value && t.id == Some(k);
      }
    }
  }

  /** `parseTasks(snapshot)`, with the snapshot's dictionary visited in
      `order`; what it yields is stated by `ParseTasksMeaning`. */
  function ParseTasks(snapshot: Value, order: seq<string>): (r: Result<seq<Task>, DecodeError>)
    requires snapshot.Dict? ==> Enumerates(order, snapshot.fields)
    ensures !snapshot.Dict? ==> r == Ok([])
  {
    if !snapshot.Dict? then Ok([])
    else CompactMap(snapshot.fields, order, TaskEntry)
  }

  /** `parseTasks` yields `[]` for a snapshot that is not a dictionary;
      otherwise one dictionary child that fails to decode makes the whole
      parse throw, and a successful parse holds exactly the dictionary
      children's tasks, each carrying its key as id, other children being
      dropped. */
  lemma ParseTasksMeaning(snapshot: Value, order: seq<string>)
    requires snapshot.Dict? ==> Enumerates(order, snapshot.fields)
    ensures var r := ParseTasks(snapshot, order);
      && (r.Err? <==>
          snapshot.Dict? && exists k :: k in snapshot.fields && snapshot.fields[k].Dict? && DecodeTask(snapshot.fields[k].fields).Err?)
      && (r.Ok? ==> forall t :: t in r.value ==> t.id.Some? && ReadFrom(snapshot, t.id.value, t))
      && (r.Ok? && snapshot.Dict? ==>
          forall k :: k in snapshot.fields && snapshot.fields[k].Dict? ==> exists t :: t in r.value && t.id == Some(k))
      && (r.Ok? ==> DistinctIds(r.value))
  {
    if snapshot.Dict? {
      ParsedIdsDistinct(snapshot.fields, order);
      TaskParseThrows(snapshot.fields, order);
      TaskParseContents(snapshot.fields, order);
    }
  }

  // ------------------------------------------------------------------
  // The projection shown by the task list

  /** `TasksViewModel.TaskFilter`, with the menu titles as raw values. */
  datatype TaskFilter = ShowAll | ShowActive | ShowCompleted | ShowOverdue {
    function RawValue(): string
    {
      match this
      case ShowAll => "Все"
      case ShowActive => "Активные"
      case ShowCompleted => "Завершенные"
      case ShowOverdue => "Просроченные"
    }
  }

  /** The search text occurs in the title or in the description, ignoring case. */
  predicate MatchesText(t: Task, text: string)
  {
    CaseInsensitiveContains(t.title, text) || CaseInsensitiveContains(t.description, text)
  }

  predicate MatchesFilter(t: Task, filter: TaskFilter, now: int)
  {
    match filter
    case ShowAll => true
    case ShowActive => t.status == Active
    case ShowCompleted => t.status == Completed
    case ShowOverdue => IsOverdue(t, now)
  }

  /** A task is listed when it passes the text filter (skipped for an empty
      search text) and the status filter. */
  predicate IsShown(t: Task, text: string, filter: TaskFilter, now: int)
  {
    (text == [] || MatchesText(t, text)) && MatchesFilter(t, filter, now)
  }

  /** `filterTasks(tasks, text:, filter:)`, with `now` for the clock that
      `isOverdue` reads: exactly the shown tasks, each as often as in
      `tasks`, ordered by due date. */
  function FilterTasks(tasks: seq<Task>, text: string, filter: TaskFilter, now: int): (r: seq<Task>)
    ensures forall i, j :: 0 <= i < j < |r| ==> r[i].dueDate <= r[j].dueDate
    ensures forall t :: multiset(r)[t] == if IsShown(t, text, filter, now) then multiset(tasks)[t] else 0
  {
    var byText := if text == [] then tasks else Filter(tasks, (t: Task) => MatchesText(t, text));
    var byStatus := match filter
      case ShowAll => byText
      case ShowActive => Filter(byText, (t: Task) => t.status == Active)
      case ShowCompleted => Filter(byText, (t: Task) => t.status == Completed)
      case ShowOverdue => Filter(byText, (t: Task) => IsOverdue(t, now));
    var r := SortBy(byStatus, (t: Task) => t.dueDate);
    assert forall t :: multiset(byStatus)[t] == if IsShown(t, text, filter, now) then multiset(tasks)[t] else 0;
    r
  }

  /** With an empty search text and no status filter the list shows every
      task, only reordered. */
  lemma FilterTasksShowsAllWhenUnfiltered(tasks: seq<Task>, now: int)
    ensures multiset(FilterTasks(tasks, "", ShowAll, now)) == multiset(tasks)
  {
    var r := FilterTasks(tasks, "", ShowAll, now);
    assert forall t :: multiset(r)[t] == multiset(tasks)[t];
  }

  /** Every listed task matches the search text and the status filter. */
  lemma {:induction false} ListedTasksAreShown(tasks: seq<Task>, text: string, filter: TaskFilter, now: int, t: Task)
    requires t in FilterTasks(tasks, text, filter, now)
    ensures t in tasks
    ensures text != [] ==> MatchesText(t, text)
    ensures filter == ShowActive ==> t.status == Active
    ensures filter == ShowCompleted ==> t.status == Completed
    ensures filter == ShowOverdue ==> IsOverdue(t, now)
  {
    var r := FilterTasks(tasks, text, filter, now);
    assert multiset(r)[t] > 0;
  }

  // ------------------------------------------------------------------
  // Mutations

  /** The status `toggleTaskStatus` writes: an active task becomes completed,
      any other becomes active. */
  function ToggledStatus(s: Status): (r: Status)
    ensures r == Completed <==> s == Active
    ensures r != Archived
  {
    if s == Active then Completed else Active
  }

  /** Toggling twice gives the status back, except that an archived task
      comes back active. */
  lemma ToggleTwice(s: Status)
    ensures ToggledStatus(ToggledStatus(s)) == s <==> s != Archived
  {
  }

  /** An overdue task is no longer overdue once toggled. */
  lemma ToggleClearsOverdue(t: Task, now: int)
    requires IsOverdue(t, now)
    ensures !IsOverdue(t.(status := ToggledStatus(t.status)), now)
  {
  }

  /** Overwriting only the `status` field of a stored task changes only the
      status of the decoded task. */
  lemma DecodeAfterStatusUpdate(fields: Fields, s: Status)
    requires DecodeTask(fields).Ok?
    ensures DecodeTask(fields + map["status" := Str(s.RawValue())]) == Ok(DecodeTask(fields).value.(status := s))
  {
    StatusRawValueRoundTrip(s);
  }

  /** What a task operation reports to its completion. */
  datatype TaskError = MissingId | StoreFailure(message: string) {
    function Description(): string
    {
      match this
      case MissingId => "Отсутствует ID задачи"
      case StoreFailure(m) => m
    }
  }

  function StoreError(failure: Option<string>): (r: Option<TaskError>)
    ensures r.None? <==> failure.None?
  {
    if failure.Some? then Some(StoreFailure(failure.value)) else None
  }

  class TasksViewModel {
    var allTasks: seq<Task>
    var filteredTasks: seq<Task>
    var searchText: string
    var selectedFilter: TaskFilter
    /** The clock reading at which `filteredTasks` was last computed. */
    ghost var computedAt: int
    const db: Collection

    /** The effect of the Combine binding: `filteredTasks` is the projection
        of the other three. */
    ghost predicate Valid()
      reads this
    {
      filteredTasks == FilterTasks(allTasks, searchText, selectedFilter, computedAt)
    }

    constructor (db: Collection, now: int)
      ensures Valid() && this.db == db
      ensures allTasks == [] && filteredTasks == [] && searchText == "" && selectedFilter == ShowAll
    {
      this.db := db;
      allTasks := [];
      searchText := "";
      selectedFilter := ShowAll;
      filteredTasks := FilterTasks([], "", ShowAll, now);
      computedAt := now;
    }

    method SetSearchText(text: string, now: int)
      requires Valid()
      modifies this`searchText, this`filteredTasks, this`computedAt
      ensures Valid() && computedAt == now
      ensures searchText == text && allTasks == old(allTasks) && selectedFilter == old(selectedFilter)
    {
      searchText := text;
      computedAt := now;
      filteredTasks := FilterTasks(allTasks, searchText, selectedFilter, now);
    }

    method SetSelectedFilter(filter: TaskFilter, now: int)
      requires Valid()
      modifies this`selectedFilter, this`filteredTasks, this`computedAt
      ensures Valid() && computedAt == now
      ensures selectedFilter == filter && allTasks == old(allTasks) && searchText == old(searchText)
    {
      selectedFilter := filter;
      computedAt := now;
      filteredTasks := FilterTasks(allTasks, searchText, selectedFilter, now);
    }

    /** The `observe(.value)` listener on `tasks`, for a snapshot whose
        dictionary is visited in `order`: a successful parse replaces
        `allTasks` (and so `filteredTasks`); a parse error is only printed
        and both lists stay as they were. */
    method OnTasksSnapshot(order: seq<string>, now: int) returns (printed: Option<DecodeError>)
      requires Valid()
      requires Enumerates(order, db.children)
      modifies this`allTasks, this`filteredTasks, this`computedAt
      ensures Valid()
      ensures var parsed := ParseTasks(db.Snapshot(), order);
        if parsed.Ok? then printed.None? && allTasks == parsed.value && computedAt == now
        else printed == Some(parsed.error) && allTasks == old(allTasks) && filteredTasks == old(filteredTasks)
    {
      var parsed := ParseTasks(db.Snapshot(), order);
      match parsed {
        case Ok(tasks) =>
          allTasks := tasks;
          computedAt := now;
          filteredTasks := FilterTasks(allTasks, searchText, selectedFilter, now);
          printed := None;
        case Err(e) =>
          printed := Some(e);
      }
    }

    /** `addTask(task)` as written: the task's fields, encoded by
        `JSONEncoder()` with seconds since 2001-01-01, are written under the
        fresh auto-generated key `autoId`. */
    method AddTask(task: Task, autoId: string, failure: Option<string>) returns (error: Option<TaskError>)
      requires autoId !in db.children
      modifies db
      ensures error == StoreError(failure)
      ensures db.children == if failure.None? then old(db.children)[autoId := Dict(EncodeTaskAsWritten(task))] else old(db.children)
    {
      var e := db.SetValue(autoId, Dict(EncodeTaskAsWritten(task)), failure);
      error := StoreError(e);
    }

    /** `addTask(task)` as evidently intended: the same write, with the due
        date encoded as seconds since 1970-01-01, as `parseTasks` reads it. */
    method AddTaskCorrected(task: Task, autoId: string, failure: Option<string>) returns (error: Option<TaskError>)
      requires autoId !in db.children
      modifies db
      ensures error == StoreError(failure)
      ensures db.children == if failure.None? then old(db.children)[autoId := Dict(EncodeTask(task))] else old(db.children)
    {
      var e := db.SetValue(autoId, Dict(EncodeTask(task)), failure);
      error := StoreError(e);
    }

    /** `toggleTaskStatus(task)`: a task without id is refused; otherwise only
        the `status` field of the record under its id is written. */
    method ToggleTaskStatus(task: Task, failure: Option<string>) returns (error: Option<TaskError>)
      modifies db
      ensures task.id.None? ==> error == Some(MissingId) && db.children == old(db.children)
      ensures task.id.Some? ==> error == StoreError(failure)
      ensures task.id.Some? ==>
        db.children == if failure.None? then
          old(db.children)[task.id.value :=
            Dict(FieldsOf(old(db.Child(task.id.value))) + map["status" := Str(ToggledStatus(task.status).RawValue())])]
        else old(db.children)
    {
      if task.id.None? {
        return Some(MissingId);
      }
      var newStatus := ToggledStatus(task.status);
      var e := db.UpdateChildValues(task.id.value, map["status" := Str(newStatus.RawValue())], failure);
      error := StoreError(e);
    }

    /** `deleteTask(task)`: a task without id is refused; otherwise the record
        under its id is removed. */
    method DeleteTask(task: Task, failure: Option<string>) returns (error: Option<TaskError>)
      modifies db
      ensures task.id.None? ==> error == Some(MissingId) && db.children == old(db.children)
      ensures task.id.Some? ==> error == StoreError(failure)
      ensures task.id.Some? ==> db.children == if failure.None? then old(db.children) - {task.id.value} else old(db.children)
    {
      if task.id.None? {
        return Some(MissingId);
      }
      var e := db.RemoveValue(task.id.value, failure);
      error := StoreError(e);
    }
  }

  /** A child that decodes is, on a successful parse, listed with its key as id. */
  lemma StoredTaskIsParsed(fields: Fields, order: seq<string>, key: string)
    requires Enumerates(order, fields)
    requires key in fields && fields[key].Dict? && DecodeTask(fields[key].fields).Ok?
    ensures var parsed := ParseTasks(Dict(fields), order);
      parsed.Ok? ==> DecodeTask(fields[key].fields).value.(id := Some(key)) in parsed.value
  {
    var parsed := ParseTasks(Dict(fields), order);
    ParseTasksMeaning(Dict(fields), order);
    if parsed.Ok? {
      var t :| t in parsed.value && t.id == Some(key);
      assert ReadFrom(Dict(fields), key, t);
    }
  }

  /** As written, a task added under `autoId` is listed by the next
      successful parse with that id, but due 978307200 seconds (31 years)
      earlier than it was written, and so never as itself. */
  lemma AddedTaskIsParsed(children: map<string, Value>, task: Task, autoId: string, order: seq<string>)
    requires Enumerates(order, children[autoId := Dict(EncodeTaskAsWritten(task))])
    ensures var parsed := ParseTasks(Dict(children[autoId := Dict(EncodeTaskAsWritten(task))]), order);
      parsed.Ok? ==> task.(id := Some(autoId), dueDate := task.dueDate - ReferenceDateOffset) in parsed.value
  {
    AsWrittenDueDateShift(task);
    StoredTaskIsParsed(children[autoId := Dict(EncodeTaskAsWritten(task))], order, autoId);
  }

  /** With the corrected encoding, a task added under `autoId` is listed by
      the next successful parse exactly as written, with that id. */
  lemma AddedTaskIsParsedCorrected(children: map<string, Value>, task: Task, autoId: string, order: seq<string>)
    requires Enumerates(order, children[autoId := Dict(EncodeTask(task))])
    ensures var parsed := ParseTasks(Dict(children[autoId := Dict(EncodeTask(task))]), order);
      parsed.Ok? ==> task.(id := Some(autoId)) in parsed.value
  {
    DecodeEncodeTask(task);
    StoredTaskIsParsed(children[autoId := Dict(EncodeTask(task))], order, autoId);
  }
}
