/** The app's entities: users with their roles, tasks with their statuses and
    the overdue rule, news posts and calendar events. */
module Models {
  import opened Wire

  /** `AppUser.UserRole` */
  datatype UserRole = Admin | Manager | Employee {
    function RawValue(): string
    {
      match this
      case Admin => "admin"
      case Manager => "manager"
      case Employee => "employee"
    }

    function DisplayName(): string
    {
      match this
      case Admin => "Администратор"
      case Manager => "Менеджер"
      case Employee => "Сотрудник"
    }
  }

  /** `UserRole(rawValue:)` */
  function ParseUserRole(raw: string): (r: Option<UserRole>)
    ensures r.Some? ==> r.value.RawValue() == raw
    ensures r.None? ==> forall role: UserRole :: role.RawValue() != raw
  {
    if raw == "admin" then Some(Admin)
    else if raw == "manager" then Some(Manager)
    else if raw == "employee" then Some(Employee)
    else None
  }

  lemma UserRoleRawValueRoundTrip(role: UserRole)
    ensures ParseUserRole(role.RawValue()) == Some(role)
  {
  }

  lemma UserRoleDisplayNamesDistinct(a: UserRole, b: UserRole)
    ensures a != b ==> a.DisplayName() != b.DisplayName()
  {
  }

  /** `AppUser`. Its synthesized `==` compares all four fields. */
  datatype AppUser = AppUser(id: string, name: string, email: string, role: UserRole)

  /** What `AppUser.hash(into:)` feeds the hasher: the id alone. */
  function HashInput(u: AppUser): string
  {
    u.id
  }

  /** Users with the same id hash alike whatever their name, email or role, so
      hashing agrees with `==` (equal users hash alike) without being decided
      by it. */
  lemma HashDependsOnlyOnId(u: AppUser, v: AppUser)
    ensures u.id == v.id ==> HashInput(u) == HashInput(v)
    ensures u == v ==> HashInput(u) == HashInput(v)
    ensures u.id == v.id && u.role != v.role ==> u != v && HashInput(u) == HashInput(v)
  {
  }

  /** `Task.Status` */
  datatype Status = Active | Completed | Archived {
    function RawValue(): string
    {
      match this
      case Active => "active"
      case Completed => "completed"
      case Archived => "archived"
    }

    function DisplayName(): string
    {
      match this
      case Active => "Активная"
      case Completed => "Завершена"
      case Archived => "Архивная"
    }
  }

  /** `Task.Status(rawValue:)` */
  function ParseStatus(raw: string): (r: Option<Status>)
    ensures r.Some? ==> r.value.RawValue() == raw
    ensures r.None? ==> forall s: Status :: s.RawValue() != raw
  {
    if raw == "active" then Some(Active)
    else if raw == "completed" then Some(Completed)
    else if raw == "archived" then Some(Archived)
    else None
  }

  lemma StatusRawValueRoundTrip(s: Status)
    ensures ParseStatus(s.RawValue()) == Some(s)
  {
  }

  lemma StatusDisplayNamesDistinct(a: Status, b: Status)
    ensures a != b ==> a.DisplayName() != b.DisplayName()
  {
    if a != b {
      assert a.DisplayName()[1] != b.DisplayName()[1] || |a.DisplayName()| != |b.DisplayName()|;
    }
  }

  /** `Task`. `dueDate` is in seconds since 1970-01-01. */
  datatype Task = Task(
    id: Option<string>,
    title: string,
    description: string,
    dueDate: int,
    status: Status,
    assignedUserIds: seq<string>)

  /** `Task.isOverdue`, with the clock reading `now` in place of `Date()`. */
  predicate IsOverdue(t: Task, now: int)
  {
    t.dueDate < now && t.status == Active
  }

  /** Only an active task can be overdue, and a task due exactly now is not
      overdue yet. */
  lemma OverdueOnlyWhenActiveAndPast(t: Task, now: int)
    ensures t.status == Completed || t.status == Archived ==> !IsOverdue(t, now)
    ensures t.dueDate >= now ==> !IsOverdue(t, now)
    ensures t.status == Active && t.dueDate < now ==> IsOverdue(t, now)
  {
  }

  /** `Post`. `date` is in seconds since 1970-01-01. */
  datatype Post = Post(id: Option<string>, authorName: string, text: string, date: int, authorId: string)

  /** `CalendarEvent`. `date` is in seconds since 1970-01-01. */
  datatype CalendarEvent = CalendarEvent(id: string, title: string, date: int)
}
