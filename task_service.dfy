/**
 * The record-building logic of src/services/taskService.ts: the row
 * `createTask` inserts, the update records `updateTask` and `completeTask`
 * send, and the mapping of a stored row back to `TaskData`. The database calls
 * themselves are opaque.
 */
module TaskService {
  import opened Wrappers

  datatype TaskStatus = Todo | InProgress | Review | Completed | Cancelled
  datatype Priority = Low | Medium | High | Urgent

  /** `TaskData`. Hours are whole numbers here. */
  datatype TaskData = TaskData(
    id: string,
    title: string,
    description: string,
    status: TaskStatus,
    priority: Priority,
    dueDate: Option<string>,
    assignedTo: string,
    assignedBy: string,
    documentId: Option<string>,
    estimatedHours: Option<int>,
    actualHours: Option<int>,
    tags: seq<string>,
    createdAt: string,
    updatedAt: string)

  /** `CreateTaskData`; the due date is already rendered as an ISO string. */
  datatype CreateTaskData = CreateTaskData(
    title: string,
    description: string,
    priority: Priority,
    dueDate: Option<string>,
    assignedTo: string,
    documentId: Option<string>,
    estimatedHours: Option<int>,
    tags: Option<seq<string>>)

  /** A row of the `tasks` table; nullable columns are options. */
  datatype TaskRow = TaskRow(
    id: string,
    title: string,
    description: string,
    status: TaskStatus,
    priority: Priority,
    due_date: Option<string>,
    assigned_to: string,
    assigned_by: string,
    document_id: Option<string>,
    estimated_hours: Option<int>,
    actual_hours: Option<int>,
    tags: Option<seq<string>>,
    created_at: string,
    updated_at: string)

  /** `Partial<TaskData>`, restricted to the fields `updateTask` looks at. */
  datatype TaskPatch = TaskPatch(
    title: Option<string>,
    description: Option<string>,
    status: Option<TaskStatus>,
    priority: Option<Priority>,
    dueDate: Option<string>,
    assignedTo: Option<string>,
    estimatedHours: Option<int>,
    actualHours: Option<int>,
    tags: Option<seq<string>>)

  /** The `updateData` record: a field that is `None` is not written. */
  datatype TaskUpdate = TaskUpdate(
    updated_at: string,
    title: Option<string>,
    description: Option<string>,
    status: Option<TaskStatus>,
    priority: Option<Priority>,
    due_date: Option<string>,
    assigned_to: Option<string>,
    estimated_hours: Option<int>,
    actual_hours: Option<int>,
    tags: Option<seq<string>>)

  /** A string field JavaScript's `if (x)` lets through: present and non-empty. */
  function WhenTruthy(s: Option<string>): (w: Option<string>)
    ensures w.Some? <==> s.Some? && s.value != ""
    ensures w.Some? ==> w == s
  {
    if s.Some? && s.value != "" then s else None
  }

  /** `createTask`: an unauthenticated caller is refused; otherwise a `todo` task owned by the caller. */
  function CreateTaskRow(id: string, user: Option<string>, data: CreateTaskData, now: string): (r: Result<TaskRow>)
    ensures user.None? <==> r.Failure?
    ensures r.Failure? ==> r.error == "User not authenticated"
    ensures r.Success? ==> r.value.status == Todo && r.value.assigned_by == user.value && r.value.actual_hours.None?
    ensures r.Success? ==> r.value.tags == Some(if data.tags.Some? then data.tags.value else [])
  {
    if user.None? then Failure("User not authenticated")
    else Success(TaskRow(id, data.title, data.description, Todo, data.priority, data.dueDate, data.assignedTo,
                         user.value, data.documentId, data.estimatedHours, None, Some(data.tags.GetOr([])), now, now))
  }

  /** `mapToTaskData`: null tags become an empty list; everything else is copied. */
  function MapToTaskData(row: TaskRow): (t: TaskData)
    ensures t.tags == (if row.tags.Some? then row.tags.value else [])
    ensures t.status == row.status && t.actualHours == row.actual_hours && t.estimatedHours == row.estimated_hours
  {
    TaskData(row.id, row.title, row.description, row.status, row.priority, row.due_date, row.assigned_to,
             row.assigned_by, row.document_id, row.estimated_hours, row.actual_hours, row.tags.GetOr([]),
             row.created_at, row.updated_at)
  }

  /**
   * What `updateTask` writes, field by field: the timestamp always; strings only
   * when non-empty; status, priority and tags whenever given (an enum value and
   * an array are always truthy); the hours whenever defined, 0 included.
   */
  function TaskUpdateOf(updates: TaskPatch, now: string): TaskUpdate
  {
    TaskUpdate(now, WhenTruthy(updates.title), WhenTruthy(updates.description), updates.status,
               updates.priority, WhenTruthy(updates.dueDate), WhenTruthy(updates.assignedTo),
               updates.estimatedHours, updates.actualHours, updates.tags)
  }

  /** `updateTask`'s `updateData`, filled one field at a time. */
  method BuildTaskUpdate(updates: TaskPatch, now: string) returns (u: TaskUpdate)
    ensures u == TaskUpdateOf(updates, now)
  {
    u := TaskUpdate(now, None, None, None, None, None, None, None, None, None);
    ghost var spec := TaskUpdateOf(updates, now);
    if updates.title.Some? && updates.title.value != "" { u := u.(title := updates.title); }
    assert u == TaskUpdate(now, spec.title, None, None, None, None, None, None, None, None);
    if updates.description.Some? && updates.description.value != "" { u := u.(description := updates.description); }
    assert u == TaskUpdate(now, spec.title, spec.description, None, None, None, None, None, None, None);
    if updates.status.Some? { u := u.(status := updates.status); }
    assert u == TaskUpdate(now, spec.title, spec.description, spec.status, None, None, None, None, None, None);
    if updates.priority.Some? { u := u.(priority := updates.priority); }
    assert u == TaskUpdate(now, spec.title, spec.description, spec.status, spec.priority, None, None, None, None, None);
    if updates.dueDate.Some? && updates.dueDate.value != "" { u := u.(due_date := updates.dueDate); }
    assert u == TaskUpdate(now, spec.title, spec.description, spec.status, spec.priority, spec.due_date, None, None, None, None);
    if updates.assignedTo.Some? && updates.assignedTo.value != "" { u := u.(assigned_to := updates.assignedTo); }
    assert u == TaskUpdate(now, spec.title, spec.description, spec.status, spec.priority, spec.due_date, spec.assigned_to, None, None, None);
    if updates.estimatedHours.Some? { u := u.(estimated_hours := updates.estimatedHours); }
    if updates.actualHours.Some? { u := u.(actual_hours := updates.actualHours); }
    if updates.tags.Some? { u := u.(tags := updates.tags); }
  }

  /** What `completeTask` writes. */
  function CompleteUpdateOf(actualHours: Option<int>, now: string): TaskUpdate
  {
    TaskUpdate(now, None, None, Some(Completed), None, None, None, None, actualHours, None)
  }

  /** `completeTask`'s `updateData`: status `completed`, the timestamp, and the hours only when supplied. */
  method BuildCompleteUpdate(actualHours: Option<int>, now: string) returns (u: TaskUpdate)
    ensures u == CompleteUpdateOf(actualHours, now)
  {
    u := TaskUpdate(now, None, None, Some(Completed), None, None, None, None, None, None);
    if actualHours.Some? {
      u := u.(actual_hours := actualHours);
    }
  }

  /** The row after the store applies an update: written fields replace, the rest stay. */
  function ApplyTaskUpdate(row: TaskRow, u: TaskUpdate): TaskRow
  {
    row.(
      updated_at := u.updated_at,
      title := u.title.GetOr(row.title),
      description := u.description.GetOr(row.description),
      status := u.status.GetOr(row.status),
      priority := u.priority.GetOr(row.priority),
      due_date := if u.due_date.Some? then u.due_date else row.due_date,
      assigned_to := u.assigned_to.GetOr(row.assigned_to),
      estimated_hours := if u.estimated_hours.Some? then u.estimated_hours else row.estimated_hours,
      actual_hours := if u.actual_hours.Some? then u.actual_hours else row.actual_hours,
      tags := if u.tags.Some? then u.tags else row.tags)
  }

  // ---------------------------------------------------------------------------

  /** `completeTask` is `updateTask` with status `completed` and the given hours. */
  lemma CompleteIsStatusUpdate(actualHours: Option<int>, now: string)
    ensures CompleteUpdateOf(actualHours, now) ==
      TaskUpdateOf(TaskPatch(None, None, Some(Completed), None, None, None, None, actualHours, None), now)
  {
  }

  /** After `completeTask` the task reads back completed, with the hours if given and the old ones otherwise. */
  lemma CompletedTaskReadsBack(row: TaskRow, actualHours: Option<int>, now: string)
    ensures var t := MapToTaskData(ApplyTaskUpdate(row, CompleteUpdateOf(actualHours, now)));
      t.status == Completed && t.updatedAt == now &&
      t.actualHours == (if actualHours.Some? then actualHours else row.actual_hours) &&
      t.title == row.title && t.assignedTo == row.assigned_to
  {
  }

  /**
   * Zero hours are written (the check is `!== undefined`), while an empty title
   * or assignee is not, so it never blanks the stored one.
   */
  lemma ZeroHoursWrittenEmptyStringsNot(row: TaskRow, p: TaskPatch, now: string)
    requires p.estimatedHours == Some(0) && p.actualHours == Some(0)
    requires p.title == Some("") && p.assignedTo == Some("")
    ensures var after := ApplyTaskUpdate(row, TaskUpdateOf(p, now));
      after.estimated_hours == Some(0) && after.actual_hours == Some(0) &&
      after.title == row.title && after.assigned_to == row.assigned_to
  {
  }

  /** An update never touches who created the task, which document it belongs to, or when it was created. */
  lemma UpdateKeepsOrigin(row: TaskRow, p: TaskPatch, now: string)
    ensures var after := ApplyTaskUpdate(row, TaskUpdateOf(p, now));
      after.id == row.id && after.assigned_by == row.assigned_by &&
      after.document_id == row.document_id && after.created_at == row.created_at
  {
  }

  /** Applying the same update twice is the same as applying it once. */
  lemma TaskUpdateIdempotent(row: TaskRow, u: TaskUpdate)
    ensures ApplyTaskUpdate(ApplyTaskUpdate(row, u), u) == ApplyTaskUpdate(row, u)
  {
  }

  /** A created task reads back as `todo`, with the caller's fields and no actual hours. */
  lemma CreatedTaskReadsBack(id: string, user: string, data: CreateTaskData, now: string)
    ensures CreateTaskRow(id, Some(user), data, now).Success?
    ensures var t := MapToTaskData(CreateTaskRow(id, Some(user), data, now).value);
      t.status == Todo && t.title == data.title && t.priority == data.priority &&
      t.assignedTo == data.assignedTo && t.assignedBy == user && t.actualHours.None? &&
      t.estimatedHours == data.estimatedHours && (data.tags.None? ==> t.tags == [])
  {
  }
}
