/** `TaskEditorView`: the form that creates or edits a task, its choice of
    assignees, and the task it hands back on save. */
module TaskEditor {
  import opened Models
  import opened Seqs
  import opened Store
  import opened Wire

  /** The selection after `toggleUserSelection(id)`: the membership of `id`
      flips and no other id changes. */
  function Toggled(selection: set<string>, id: string): (r: set<string>)
    ensures id in r <==> id !in selection
    ensures forall x :: x != id ==> (x in r <==> x in selection)
  {
    if id in selection then selection - {id} else selection + {id}
  }

  /** Toggling the same id twice restores the selection. */
  lemma ToggleTwiceRestores(selection: set<string>, id: string)
    ensures Toggled(Toggled(selection, id), id) == selection
  {
  }

  /** `assignableUsers` with `session` for `Auth.auth().currentUser`: no one
      without a session; otherwise every user but the signed-in one, in order. */
  function AssignableUsers(users: seq<AppUser>, session: Option<Session>): (r: seq<AppUser>)
    ensures session.None? ==> r == []
    ensures session.Some? ==> IsSubsequence(r, users)
    ensures session.Some? ==>
      forall u :: multiset(r)[u] == if u.id != session.value.uid then multiset(users)[u] else 0
  {
    if session.None? then [] else Filter(users, (u: AppUser) => u.id != session.value.uid)
  }

  /** Nobody can assign a task to themselves from the editor. */
  lemma SelfNotAssignable(users: seq<AppUser>, session: Session, u: AppUser)
    requires u.id == session.uid
    ensures u !in AssignableUsers(users, Some(session))
  {
    var r := AssignableUsers(users, Some(session));
    assert multiset(r)[u] == 0;
  }

  /** `Array(selectedUserIds)`: the elements of the set, each once, in an
      order Swift leaves open. */
  method ArrayOfSet(s: set<string>) returns (r: seq<string>)
    ensures Distinct(r)
    ensures forall x :: x in r <==> x in s
    ensures |r| == |s|
  {
    r := [];
    var rest := s;
    while rest != {}
      invariant rest <= s
      invariant Distinct(r)
      invariant forall x :: x in r <==> x in s && x !in rest
      invariant |r| + |rest| == |s|
      decreases rest
    {
      var x :| x in rest;
      r := r + [x];
      rest := rest - {x};
    }
  }

  /** The Save button, disabled for an empty title: it is enabled exactly
      when the title has at least one character. */
  function SaveEnabled(title: string): (enabled: bool)
    ensures enabled <==> |title| > 0
  {
    !(title == [])
  }

  class TaskEditorView {
    /** The `task` binding: the task being edited, none for a new one. */
    const task: Option<Task>
    var title: string
    var description: string
    var dueDate: int
    var selectedUserIds: set<string>
    var status: Status
    var dismissed: bool

    /** The form's initial state, with `now` for `Date()`. */
    constructor (task: Option<Task>, now: int)
      ensures this.task == task && title == "" && description == "" && dueDate == now
      ensures selectedUserIds == {} && status == Active && !dismissed
    {
      this.task := task;
      title := "";
      description := "";
      dueDate := now;
      selectedUserIds := {};
      status := Active;
      dismissed := false;
    }

    /** `onAppear`: an edited task's fields are loaded into the form; for a
        new task the defaults stay. */
    method OnAppear()
      modifies this`title, this`description, this`dueDate, this`status, this`selectedUserIds
      ensures task.Some? ==>
        && title == task.value.title && description == task.value.description
        && dueDate == task.value.dueDate && status == task.value.status
        && (forall x :: x in selectedUserIds <==> x in task.value.assignedUserIds)
      ensures task.None? ==>
        && title == old(title) && description == old(description) && dueDate == old(dueDate)
        && status == old(status) && selectedUserIds == old(selectedUserIds)
    {
      if task.Some? {
        var t := task.value;
        title := t.title;
        description := t.description;
        dueDate := t.dueDate;
        status := t.status;
        selectedUserIds := set x | x in t.assignedUserIds;
      }
    }

    /** `toggleUserSelection(_:)` */
    method ToggleUserSelection(userId: string)
      modifies this`selectedUserIds
      ensures selectedUserIds == Toggled(old(selectedUserIds), userId)
    {
      if userId in selectedUserIds {
        selectedUserIds := selectedUserIds - {userId};
      } else {
        selectedUserIds := selectedUserIds + {userId};
      }
    }

    /** The task `saveTask` builds: the edited task's id (none for a new
        task), the form's fields, and the selected ids, each once. */
    method MakeTask() returns (t: Task)
      ensures t.id == if task.Some? then task.value.id else None
      ensures t.title == title && t.description == description && t.dueDate == dueDate && t.status == status
      ensures Distinct(t.assignedUserIds) && |t.assignedUserIds| == |selectedUserIds|
      ensures forall x :: x in t.assignedUserIds <==> x in selectedUserIds
    {
      var assignees := ArrayOfSet(selectedUserIds);
      t := Task(if task.Some? then task.value.id else None, title, description, dueDate, status, assignees);
    }

    /** The Save button: `saveTask()` hands the task to `onSave` (returned
        here as `saved`), and the sheet is dismissed whatever becomes of it. */
    method SaveTapped() returns (saved: Task)
      modifies this`dismissed
      ensures dismissed
      ensures saved.id == if task.Some? then task.value.id else None
      ensures saved.title == title && saved.description == description && saved.dueDate == dueDate && saved.status == status
      ensures Distinct(saved.assignedUserIds) && forall x :: x in saved.assignedUserIds <==> x in selectedUserIds
    {
      saved := MakeTask();
      dismissed := true;
    }

    /** Opening an existing task and saving it untouched gives the same task
        back, except that repeated assignees appear once and in an order
        Swift leaves open. */
    method ReopenAndSave() returns (saved: Task)
      requires task.Some?
      modifies this`title, this`description, this`dueDate, this`status, this`selectedUserIds, this`dismissed
      ensures saved.id == task.value.id && saved.title == task.value.title && saved.description == task.value.description
      ensures saved.dueDate == task.value.dueDate && saved.status == task.value.status
      ensures Distinct(saved.assignedUserIds)
      ensures forall x :: x in saved.assignedUserIds <==> x in task.value.assignedUserIds
    {
      OnAppear();
      saved := SaveTapped();
    }
  }
}
