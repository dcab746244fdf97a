/** The `Task` record of api/tasks/models.py: an owner reference (a
    nullable foreign key to the user table, deleted with its user), a title
    of at most 45 characters, a completion flag that defaults to false, a
    creation date set once, and an optional limit date. */
module TaskModel {
  import opened Rest

  datatype Task = Task(
    user: Option<UserId>,
    title: string,
    isCompleted: bool,
    date: Date,
    limitDate: Option<Date>)

  /** `max_length` of the `title` column. */
  const TitleMaxLength: nat := 45

  /** A row as `Task.objects.create` stores it: `is_completed` takes its
      default unless given, `date` is filled in with the day of creation
      (`auto_now_add`) and `limit_date`, which has no default, is null. */
  function NewTask(user: UserId, title: string, isCompleted: Option<bool>, today: Date): (t: Task)
    ensures t.user == Some(user) && t.title == title && t.date == today
    ensures t.isCompleted <==> isCompleted == Some(true)
    ensures t.limitDate.None?
  {
    Task(Some(user), title, match isCompleted case Some(b) => b case None => false, today, None)
  }
}
