/** The plain-text task lists the bot shows: `tasks_getter` in dialogs.py
    (one line per task) and the `/todo` rendering of bot.py (a block per
    task with optional due-date and category lines). */
module Render {
  import opened Common
  import opened ApiClient

  const NoTasksText := "No tasks found."

  // ---------------------------------------------------------------------
  // dialogs.py: tasks_getter

  /** The line `tasks_getter` writes for one task. */
  function TaskLine(t: TaskJson): string {
    "• " + GetText(t.title, "No title") + " (Created: " + GetText(t.createdAt, "Unknown date") + ")\n"
  }

  /** The lines of all tasks, in list order. */
  function Lines(tasks: seq<TaskJson>): (text: string)
    ensures tasks != [] ==> |text| > 0 && text[0] == '•'
  {
    if tasks == [] then "" else TaskLine(tasks[0]) + Lines(tasks[1..])
  }

  /** The text of the task list window. */
  function TasksText(tasks: seq<TaskJson>): (text: string)
    ensures tasks == [] ==> text == NoTasksText
    ensures tasks != [] ==> |text| > 0 && text[0] == '•' && text != NoTasksText
  {
    if tasks == [] then NoTasksText else Lines(tasks)
  }

  lemma {:induction false} LinesAppend(a: seq<TaskJson>, b: seq<TaskJson>)
    ensures Lines(a + b) == Lines(a) + Lines(b)
  {
    if a == [] {
      assert a + b == b;
    } else {
      assert (a + b)[1..] == a[1..] + b;
      LinesAppend(a[1..], b);
    }
  }

  /** `tasks_getter`: reads `tasks` from the dialog data (the empty list when
      the key is missing) and accumulates one line per task. */
  method TasksGetter(stored: Option<seq<TaskJson>>) returns (tasksStr: string)
    ensures tasksStr == TasksText(stored.GetOr([]))
  {
    var tasks := stored.GetOr([]);
    tasksStr := "";
    if tasks != [] {
      var i := 0;
      while i < |tasks|
        invariant 0 <= i <= |tasks|
        invariant tasksStr == Lines(tasks[..i])
      {
        LinesAppend(tasks[..i], [tasks[i]]);
        assert tasks[..i + 1] == tasks[..i] + [tasks[i]];
        tasksStr := tasksStr + "• " + GetText(tasks[i].title, "No title") +
          " (Created: " + GetText(tasks[i].createdAt, "Unknown date") + ")\n";
        i := i + 1;
      }
      assert tasks[..|tasks|] == tasks;
    } else {
      tasksStr := "No tasks found.";
    }
  }

  /** The list keeps the order of the tasks: the line of task `i` stands
      right after the lines of the tasks before it. */
  lemma LineAt(tasks: seq<TaskJson>, i: nat)
    requires i < |tasks|
    ensures var start := |Lines(tasks[..i])|;
      start + |TaskLine(tasks[i])| <= |Lines(tasks)| &&
      Lines(tasks)[start..start + |TaskLine(tasks[i])|] == TaskLine(tasks[i])
  {
    assert tasks == tasks[..i] + ([tasks[i]] + tasks[i + 1..]);
    LinesAppend(tasks[..i], [tasks[i]] + tasks[i + 1..]);
    LinesAppend([tasks[i]], tasks[i + 1..]);
    assert Lines([tasks[i]]) == TaskLine(tasks[i]) + Lines([]);
  }

  predicate NoNewline(s: string) { forall i :: 0 <= i < |s| ==> s[i] != '\n' }

  /** A task whose shown title and date contain no line break. */
  predicate SingleLine(t: TaskJson) {
    NoNewline(GetText(t.title, "No title")) && NoNewline(GetText(t.createdAt, "Unknown date"))
  }

  /** One line per task: when no title or date holds a line break, the list has exactly one line break per task. */
  lemma {:induction false} OneLinePerTask(tasks: seq<TaskJson>)
    requires forall k :: 0 <= k < |tasks| ==> SingleLine(tasks[k])
    ensures Count(Lines(tasks), '\n') == |tasks|
  {
    if tasks != [] {
      var t := tasks[0];
      var title, date := GetText(t.title, "No title"), GetText(t.createdAt, "Unknown date");
      var head := "• " + title + " (Created: " + date;
      assert NoNewline(head);
      CountAbsent(head, '\n');
      CountAppend(head, ")\n", '\n');
      assert TaskLine(t) == head + ")\n";
      CountAppend(TaskLine(t), Lines(tasks[1..]), '\n');
      OneLinePerTask(tasks[1..]);
    }
  }

  // ---------------------------------------------------------------------
  // bot.py: view_tasks_handler

  /** The due-date line, present only when `due_date` is truthy. */
  function DueLine(t: TaskJson): string {
    if TextTruthy(t.dueDate) then "  Due: " + t.dueDate.v + "\n" else ""
  }

  /** The categories line, present only when the category list is non-empty. */
  function CategoriesLine(t: TaskJson): string {
    if ListTruthy(t.categories) then "  Categories: " + Join(", ", t.categories.v) + "\n" else ""
  }

  /** The block for one task; `None` when `task['title']` or
      `task['created_at']` raises `KeyError`. */
  function Block(t: TaskJson): Option<string> {
    match (SubscriptText(t.title), SubscriptText(t.createdAt))
    case (Some(title), Some(date)) =>
      Some("• " + title + " (Created: " + date + ")\n" + DueLine(t) + CategoriesLine(t) + "\n")
    case _ => None
  }

  /** The blocks of all tasks in order; `None` as soon as one raises. */
  function Blocks(tasks: seq<TaskJson>): Option<string> {
    if tasks == [] then Some("")
    else match (Block(tasks[0]), Blocks(tasks[1..]))
      case (Some(b), Some(rest)) => Some(b + rest)
      case _ => None
  }

  /** The text of `/todo`, `None` when the handler raises. */
  function LegacyTasksText(tasks: seq<TaskJson>): Option<string> {
    if tasks == [] then Some(NoTasksText) else Blocks(tasks)
  }

  lemma {:induction false} BlocksAppend(a: seq<TaskJson>, b: seq<TaskJson>)
    ensures Blocks(a + b) ==
      if Blocks(a).Some? && Blocks(b).Some? then Some(Blocks(a).value + Blocks(b).value) else None
  {
    if a == [] {
      assert a + b == b;
      assert Blocks(a) == Some("");
      if Blocks(b).Some? {
        assert "" + Blocks(b).value == Blocks(b).value;
      }
    } else {
      assert (a + b)[0] == a[0];
      assert (a + b)[1..] == a[1..] + b;
      BlocksAppend(a[1..], b);
      var head, rest := Block(a[0]), Blocks(a[1..]);
      if head.Some? && rest.Some? && Blocks(b).Some? {
        assert Blocks(a + b) == Some(head.value + (rest.value + Blocks(b).value));
        assert head.value + (rest.value + Blocks(b).value) == (head.value + rest.value) + Blocks(b).value;
      }
    }
  }

  /** `text` with the block of `t` appended piece by piece, as the loop does. */
  function AppendBlock(text: string, t: TaskJson): string {
    var withLine := text + "• " + GetText(t.title, "") + " (Created: " + GetText(t.createdAt, "") + ")\n";
    var withDue := if TextTruthy(t.dueDate) then withLine + "  Due: " + t.dueDate.v + "\n" else withLine;
    var withCategories :=
      if ListTruthy(t.categories) then withDue + "  Categories: " + Join(", ", t.categories.v) + "\n" else withDue;
    withCategories + "\n"
  }

  lemma Assoc(a: string, b: string, c: string)
    ensures a + b + c == a + (b + c)
  {
  }

  /** Appending five pieces one by one appends their concatenation. */
  lemma AppendFive(text: string, p1: string, p2: string, p3: string, p4: string, p5: string)
    ensures text + p1 + p2 + p3 + p4 + p5 == text + (p1 + p2 + p3 + p4 + p5)
  {
    Assoc(text, p1, p2);
    Assoc(text, p1 + p2, p3);
    Assoc(text, p1 + p2 + p3, p4);
    Assoc(text, p1 + p2 + p3 + p4, p5);
  }

  lemma AppendBlockConcat(text: string, t: TaskJson)
    requires !t.title.Absent? && !t.createdAt.Absent?
    ensures Block(t).Some? && AppendBlock(text, t) == text + Block(t).value
  {
    var title, date := GetText(t.title, ""), GetText(t.createdAt, "");
    var line := "• " + title + " (Created: " + date + ")\n";
    AppendFive(text, "• ", title, " (Created: ", date, ")\n");
    var due, cats := DueLine(t), CategoriesLine(t);
    if TextTruthy(t.dueDate) {
      Assoc(text + line, "  Due: ", t.dueDate.v);
      Assoc(text + line, "  Due: " + t.dueDate.v, "\n");
    }
    if ListTruthy(t.categories) {
      Assoc(text + line + due, "  Categories: ", Join(", ", t.categories.v));
      Assoc(text + line + due, "  Categories: " + Join(", ", t.categories.v), "\n");
    }
    assert AppendBlock(text, t) == text + line + due + cats + "\n";
    Assoc(text, line, due);
    Assoc(text, line + due, cats);
    Assoc(text, line + due + cats, "\n");
  }

  /** The rendering loop of `view_tasks_handler`: per task a title/date line,
      a due line if `due_date` is truthy, a categories line if there are
      categories, and a blank line; `None` when a lookup raises. */
  method RenderLegacyTasks(tasks: seq<TaskJson>) returns (tasksText: Option<string>)
    ensures tasksText == LegacyTasksText(tasks)
  {
    if tasks == [] {
      return Some("No tasks found.");
    }
    var text := "";
    var i := 0;
    while i < |tasks|
      invariant 0 <= i <= |tasks|
      invariant Blocks(tasks[..i]) == Some(text)
    {
      var task := tasks[i];
      assert tasks[..i + 1] == tasks[..i] + [task];
      BlocksAppend(tasks[..i], [task]);
      assert [task][1..] == [];
      if task.title.Absent? || task.createdAt.Absent? {
        assert tasks == tasks[..i + 1] + tasks[i + 1..];
        BlocksAppend(tasks[..i + 1], tasks[i + 1..]);
        return None;
      }
      ghost var before := text;
      text := text + "• " + GetText(task.title, "") + " (Created: " + GetText(task.createdAt, "") + ")\n";
      if TextTruthy(task.dueDate) {
        text := text + "  Due: " + task.dueDate.v + "\n";
      }
      if ListTruthy(task.categories) {
        var cats := task.categories.v;
        text := text + "  Categories: " + Join(", ", cats) + "\n";
      }
      text := text + "\n";
      AppendBlockConcat(before, task);
      ghost var block := Block(task).value;
      assert Blocks([task]) == Some(block + "");
      assert block + "" == block;
      i := i + 1;
    }
    assert tasks[..|tasks|] == tasks;
    tasksText := Some(text);
  }

  /** `/todo` raises exactly when some task lacks `title` or `created_at`. */
  lemma {:induction false} LegacyRaisesIff(tasks: seq<TaskJson>)
    ensures LegacyTasksText(tasks).None? <==>
      exists k :: 0 <= k < |tasks| && (tasks[k].title.Absent? || tasks[k].createdAt.Absent?)
  {
    if tasks != [] {
      LegacyRaisesIff(tasks[1..]);
      if Blocks(tasks[1..]).None? {
        var k :| 0 <= k < |tasks[1..]| && (tasks[1..][k].title.Absent? || tasks[1..][k].createdAt.Absent?);
        assert tasks[k + 1] == tasks[1..][k];
      }
    }
  }

  /** The first line of a block is the line dialogs.py shows for the same task. */
  lemma BlockExtendsTaskLine(t: TaskJson)
    requires !t.title.Absent? && !t.createdAt.Absent?
    ensures Block(t) == Some(TaskLine(t) + DueLine(t) + CategoriesLine(t) + "\n")
  {
  }

  /** A block has a line per shown part: two, plus one for a due date, plus one for categories. */
  lemma BlockLineCount(t: TaskJson)
    requires SingleLine(t)
    requires t.dueDate.Value? ==> NoNewline(t.dueDate.v)
    requires t.categories.Value? ==> NoNewline(Join(", ", t.categories.v))
    requires !t.title.Absent? && !t.createdAt.Absent?
    ensures Count(Block(t).value, '\n') ==
      2 + (if TextTruthy(t.dueDate) then 1 else 0) + (if ListTruthy(t.categories) then 1 else 0)
  {
    var title, date := GetText(t.title, "No title"), GetText(t.createdAt, "Unknown date");
    var head := "• " + title + " (Created: " + date;
    CountAbsent(head, '\n');
    CountAppend(head, ")\n", '\n');
    var line := head + ")\n";
    assert Count(DueLine(t), '\n') == (if TextTruthy(t.dueDate) then 1 else 0) by {
      if TextTruthy(t.dueDate) {
        var d := "  Due: " + t.dueDate.v;
        CountAbsent(d, '\n');
        CountAppend(d, "\n", '\n');
        assert DueLine(t) == d + "\n";
      }
    }
    assert Count(CategoriesLine(t), '\n') == (if ListTruthy(t.categories) then 1 else 0) by {
      if ListTruthy(t.categories) {
        var c := "  Categories: " + Join(", ", t.categories.v);
        CountAbsent(c, '\n');
        CountAppend(c, "\n", '\n');
        assert CategoriesLine(t) == c + "\n";
      }
    }
    CountAppend(line, DueLine(t), '\n');
    CountAppend(line + DueLine(t), CategoriesLine(t), '\n');
    CountAppend(line + DueLine(t) + CategoriesLine(t), "\n", '\n');
    assert Block(t).value == line + DueLine(t) + CategoriesLine(t) + "\n";
  }

  /** The text of bot.py's viewing window: `tasks` as supplied to the
      getter, or "No tasks found" when nothing is supplied. */
  function ViewingWindowText(supplied: Option<string>): (text: string)
    ensures supplied.None? ==> text == "Your tasks:\nNo tasks found"
    ensures supplied.Some? ==> text == "Your tasks:\n" + supplied.value
    ensures StartsWith(text, "Your tasks:\n")
  {
    "Your tasks:\n" + supplied.GetOr("No tasks found")
  }
}
