/** The two task serializers of api/tasks/serializers.py: what each one
    renders for a task and what it accepts from a client. */
module TaskSerializers {
  import opened Rest
  import opened TaskModel

  datatype Serializer = TaskModelSerializer | TaskUpdateSerializer

  /** `Meta.fields` of each serializer, in declaration order. */
  function Fields(s: Serializer): seq<string>
  {
    match s
    case TaskModelSerializer => ["user", "title", "is_completed", "date"]
    case TaskUpdateSerializer => ["title"]
  }

  /** The rendering of one declared field. `user` is declared as a
      `CharField`, so the owner is rendered as its string form, the
      username. */
  function FieldValue(f: string, t: Task, ownerName: string): Value
  {
    if f == "user" then Text(ownerName)
    else if f == "is_completed" then Flag(t.isCompleted)
    else if f == "date" then Day(t.date)
    else Text(t.title)
  }

  /** `Serializer(task).data`: exactly the declared fields, so `limit_date`
      (declared by neither) is never shown, and the title-only serializer
      shows the title and nothing else. */
  function Represent(s: Serializer, t: Task, ownerName: string): (data: map<string, Value>)
    ensures data.Keys == set f | f in Fields(s)
    ensures "limit_date" !in data && "title" in data && data["title"] == Text(t.title)
    ensures s == TaskModelSerializer ==>
              data.Keys == {"user", "title", "is_completed", "date"} &&
              data["user"] == Text(ownerName) &&
              data["is_completed"] == Flag(t.isCompleted) &&
              data["date"] == Day(t.date)
    ensures s == TaskUpdateSerializer ==> data == map["title" := Text(t.title)]
  {
    map f | f in Fields(s) :: FieldValue(f, t, ownerName)
  }

  /** A task payload as a client may send it. `date` is read-only
      (`auto_now_add`) and `limit_date` is a field of neither serializer:
      both can be sent, and both are dropped by validation. */
  datatype TaskPayload = TaskPayload(
    user: Option<string>,
    title: Option<string>,
    isCompleted: Option<bool>,
    date: Option<Date>,
    limitDate: Option<Date>)

  /** Field validation of `TaskModelSerializer`. Both character fields are
      trimmed of surrounding whitespace before they are checked. `user` has
      a default and so is never required, but a submitted value may not be
      blank; `title` is required except in a partial update and holds 1 to
      45 characters; neither may hold a null character; `is_completed` has
      a model default and is optional. */
  function ModelErrors(p: TaskPayload, partial: bool): (errs: set<string>)
    ensures errs <= {"user", "title"}
    ensures "user" in errs <==>
              p.user.Some? && (Strip(p.user.value) == [] || '\U{0}' in Strip(p.user.value))
    ensures "title" !in errs <==>
              (p.title.None? && partial) ||
              (p.title.Some? && 0 < |Strip(p.title.value)| <= TitleMaxLength && '\U{0}' !in Strip(p.title.value))
  {
    var user := p.user;
    (if user.Some? && (Strip(user.value) == [] || '\U{0}' in Strip(user.value)) then {"user"} else {}) +
    CharFieldErrors("title", p.title, !partial, 0, TitleMaxLength)
  }

  /** Field validation of `TaskUpdateSerializer`: only `title`, required,
      1 to 45 characters once trimmed, and no null character. */
  function UpdateErrors(p: TaskPayload): (errs: set<string>)
    ensures errs <= {"title"}
    ensures errs == {} <==>
              p.title.Some? && 0 < |Strip(p.title.value)| <= TitleMaxLength && '\U{0}' !in Strip(p.title.value)
  {
    CharFieldErrors("title", p.title, true, 0, TitleMaxLength)
  }

  /** Applying a validated payload to a fetched task, as `update` does:
      each submitted writable field is set (the title as trimmed), and
      nothing else. A submitted
      `date` or `limit_date` was dropped by validation and changes nothing.
      The owner is not assignable from a string, so callers stop before
      this when `user` was submitted. */
  function Apply(t: Task, p: TaskPayload): (t': Task)
    requires p.user.None?
    ensures t'.user == t.user && t'.date == t.date && t'.limitDate == t.limitDate
    ensures t'.title == (if p.title.Some? then Strip(p.title.value) else t.title)
    ensures t'.isCompleted == (if p.isCompleted.Some? then p.isCompleted.value else t.isCompleted)
  {
    t.(title := if p.title.Some? then Strip(p.title.value) else t.title,
       isCompleted := if p.isCompleted.Some? then p.isCompleted.value else t.isCompleted)
  }
}
