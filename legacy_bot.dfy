/** The earlier bot of bot.py: five windows on the dialog library's stack
    of contexts, driven by the `/start`, `/add_task`, `/todo` and `/skip`
    handlers registered on the dispatcher. Each context holds its window
    and its own `dialog_data`, of which only the "tasks" key is written. */
module LegacyBot {
  import opened Common
  import opened ApiClient
  import Render
  import Dialogs

  datatype LegacyState = ChoosingAction | AddingTitle | AddingDescription | AddingCategories | ViewingTasks

  /** One context on the stack: its window and `dialog_data["tasks"]`. */
  datatype Frame = Frame(state: LegacyState, tasks: Option<string>)

  /** `/start`, `/add_task`, `/todo`, the Back button of the task list, and
      any other text (which includes `/skip`). */
  datatype LegacyEvent = StartCommand | AddTaskCommand | TodoCommand(telegramUserId: int) | BackButton | Text(text: string)

  datatype LegacyOutcome = LegacyOutcome(after: seq<Frame>, call: BackendCall, raised: bool)

  /** `dialog_manager.start(state)`: a new context with empty data on top of the stack. */
  function Push(stack: seq<Frame>, state: LegacyState): (after: seq<Frame>)
    ensures |after| == |stack| + 1 && after[..|stack|] == stack && after[|stack|] == Frame(state, None)
  {
    stack + [Frame(state, None)]
  }

  /** The windows whose message input is the two-parameter lambda. */
  predicate IsInputWindow(state: LegacyState) {
    state == AddingTitle || state == AddingDescription || state == AddingCategories
  }

  /** The skip handler: the description window moves on to the categories
      window in the same context, the categories window closes its context,
      any other window is left as it is; without a context,
      `current_context()` raises. */
  function Skip(stack: seq<Frame>): (o: LegacyOutcome)
    ensures o.call == NoCall
    ensures o.raised <==> stack == []
    ensures !o.raised ==> |stack| - 1 <= |o.after| <= |stack| && stack[..|stack| - 1] <= o.after
  {
    if stack == [] then LegacyOutcome(stack, NoCall, true)
    else
      var n := |stack| - 1;
      var top := stack[n];
      if top.state == AddingDescription then LegacyOutcome(stack[..n] + [top.(state := AddingCategories)], NoCall, false)
      else if top.state == AddingCategories then LegacyOutcome(stack[..n], NoCall, false)
      else LegacyOutcome(stack, NoCall, false)
  }

  /** `view_tasks_handler`: fetch every task, render them, store the text in
      the current context, and open the task list in a new context. The
      fetch comes first; rendering raises on a task without "title" or
      "created_at", and the store raises without a context. */
  function Todo(stack: seq<Frame>, listReply: Response<seq<TaskJson>>): (o: LegacyOutcome)
    ensures o.call == GetTasks(TasksPath)
    ensures o.raised ==> o.after == stack
    ensures !o.raised ==>
      && stack != [] && |o.after| == |stack| + 1
      && o.after[..|stack| - 1] == stack[..|stack| - 1] && o.after[|stack|] == Frame(ViewingTasks, None)
  {
    var text := Render.LegacyTasksText(FetchedTasks(listReply));
    if text.None? || stack == [] then LegacyOutcome(stack, GetTasks(TasksPath), true)
    else
      var n := |stack| - 1;
      LegacyOutcome(Push(stack[..n] + [stack[n].(tasks := Some(text.value))], ViewingTasks), GetTasks(TasksPath), false)
  }

  /** One event. The dispatcher's own handlers come before the dialog's: a
      text whose lower-case form is "/skip" always reaches the skip handler.
      Other text in an input window reaches the window's lambda, which is
      given three arguments (message, widget, manager) but takes two, and
      so raises; in any other window nothing handles it. */
  function LegacyNext(stack: seq<Frame>, e: LegacyEvent, listReply: Response<seq<TaskJson>>): (o: LegacyOutcome)
    ensures o.call != NoCall ==> e.TodoCommand?
    ensures o.raised ==> o.after == stack
    ensures |o.after| <= |stack| + 1
  {
    match e
    case StartCommand => LegacyOutcome(Push(stack, ChoosingAction), NoCall, false)
    case AddTaskCommand => LegacyOutcome(Push(stack, AddingTitle), NoCall, false)
    case TodoCommand(_) => Todo(stack, listReply)
    case BackButton =>
      if stack != [] && stack[|stack| - 1].state == ViewingTasks then LegacyOutcome(Push(stack, ChoosingAction), NoCall, false)
      else LegacyOutcome(stack, NoCall, false)
    case Text(text) =>
      if IsSkipWord(text) then Skip(stack)
      else if stack != [] && IsInputWindow(stack[|stack| - 1].state) then LegacyOutcome(stack, NoCall, true)
      else LegacyOutcome(stack, NoCall, false)
  }

  /** The words every input window's text opens with. */
  const EnterPrompt := "Please enter "

  /** The text of the window on top of the stack. The task list's getter
      looks up "tasks" among its keyword arguments, which carry the
      manager and middleware data, not `dialog_data`, so the default is
      always shown. */
  function LegacyWindowText(top: Frame): (text: string)
    ensures top.state == ViewingTasks ==> text == "Your tasks:\nNo tasks found"
    ensures IsInputWindow(top.state) ==> StartsWith(text, EnterPrompt)
  {
    match top.state
    case ChoosingAction => "/todo - View your tasks\n/add_task - Add a new task"
    case AddingTitle => EnterPrompt + "a title for your task:"
    case AddingDescription => EnterPrompt + "a description for your task (optional, send /skip to skip):"
    case AddingCategories => EnterPrompt + "categories for your task (comma separated, send /skip to skip):"
    case ViewingTasks => Render.ViewingWindowText(None)
  }

  // ---------------------------------------------------------------------
  // The stack of contexts, updated in place by the handlers

  class DialogStack {
    var frames: seq<Frame>

    constructor ()
      ensures frames == []
    {
      frames := [];
    }

    /** `dialog_manager.start(state)`. */
    method Start(state: LegacyState)
      modifies this
      ensures frames == old(frames) + [Frame(state, None)]
    {
      frames := frames + [Frame(state, None)];
    }

    /** `view_tasks_handler`. */
    method ViewTasks(telegramUserId: int, listReply: Response<seq<TaskJson>>) returns (call: BackendCall, raised: bool)
      modifies this
      ensures LegacyOutcome(frames, call, raised) == Todo(old(frames), listReply)
    {
      call := GetTasks(TasksPath);
      var tasks := FetchedTasks(listReply);
      var tasksText := Render.RenderLegacyTasks(tasks);
      if tasksText.None? || frames == [] {
        raised := true;
        return;
      }
      var n := |frames| - 1;
      frames := frames[n := frames[n].(tasks := Some(tasksText.value))];
      raised := false;
      Start(ViewingTasks);
      assert frames[..n + 1][..n] == old(frames)[..n];
    }

    /** `skip_handler`. */
    method SkipHandler() returns (raised: bool)
      modifies this
      ensures LegacyOutcome(frames, NoCall, raised) == Skip(old(frames))
    {
      if frames == [] {
        return true;
      }
      raised := false;
      var n := |frames| - 1;
      if frames[n].state == AddingDescription {
        frames := frames[n := frames[n].(state := AddingCategories)];
      } else if frames[n].state == AddingCategories {
        frames := frames[..n];
      }
    }

    /** Routes an event to its handler. */
    method Handle(e: LegacyEvent, listReply: Response<seq<TaskJson>>) returns (call: BackendCall, raised: bool)
      modifies this
      ensures LegacyOutcome(frames, call, raised) == LegacyNext(old(frames), e, listReply)
    {
      call, raised := NoCall, false;
      match e
      case StartCommand =>
        Start(ChoosingAction);
      case AddTaskCommand =>
        Start(AddingTitle);
      case TodoCommand(id) =>
        call, raised := ViewTasks(id, listReply);
      case BackButton =>
        if frames != [] && frames[|frames| - 1].state == ViewingTasks {
          Start(ChoosingAction);
        }
      case Text(text) =>
        if IsSkipWord(text) {
          raised := SkipHandler();
        } else if frames != [] && IsInputWindow(frames[|frames| - 1].state) {
          raised := true;
        }
    }
  }

  // ---------------------------------------------------------------------
  // Properties

  /** `/todo` with a context and a renderable list stores the rendered text
      in the current context and opens the task list above it, showing the
      default text whatever was fetched. */
  lemma TodoStoresTextBelowList(stack: seq<Frame>, id: int, l: Response<seq<TaskJson>>)
    requires stack != [] && Render.LegacyTasksText(FetchedTasks(l)).Some?
    ensures var o := LegacyNext(stack, TodoCommand(id), l);
      var n := |stack| - 1;
      && !o.raised && o.call == GetTasks(TasksPath)
      && |o.after| == |stack| + 1 && o.after[..n] == stack[..n]
      && o.after[n] == stack[n].(tasks := Render.LegacyTasksText(FetchedTasks(l)))
      && o.after[n + 1] == Frame(ViewingTasks, None)
      && LegacyWindowText(o.after[n + 1]) == "Your tasks:\nNo tasks found"
  {
    var o := LegacyNext(stack, TodoCommand(id), l);
    var n := |stack| - 1;
    assert o.after[..n] == (stack[..n] + [stack[n].(tasks := Render.LegacyTasksText(FetchedTasks(l)))])[..n];
  }

  /** `/todo` raises exactly when there is no context or a fetched task lacks
      "title" or "created_at"; it then leaves the stack as it was. */
  lemma TodoRaisesIff(stack: seq<Frame>, id: int, l: Response<seq<TaskJson>>)
    ensures var o := LegacyNext(stack, TodoCommand(id), l);
      var tasks := FetchedTasks(l);
      && (o.raised <==> stack == [] || exists i :: 0 <= i < |tasks| && (tasks[i].title.Absent? || tasks[i].createdAt.Absent?))
      && (o.raised ==> o.after == stack)
  {
    Render.LegacyRaisesIff(FetchedTasks(l));
  }

  /** `/todo` asks for every task, whoever sends it. */
  lemma TodoIgnoresSender(stack: seq<Frame>, id1: int, id2: int, l: Response<seq<TaskJson>>)
    ensures LegacyNext(stack, TodoCommand(id1), l) == LegacyNext(stack, TodoCommand(id2), l)
    ensures LegacyNext(stack, TodoCommand(id1), l).call == GetTasks("/tasks/")
  {
  }

  /** No handler of bot.py ever sends a create request. */
  lemma NeverCreates(stack: seq<Frame>, e: LegacyEvent, l: Response<seq<TaskJson>>)
    ensures !LegacyNext(stack, e, l).call.PostTask?
    ensures LegacyNext(stack, e, l).call != NoCall <==> e.TodoCommand?
  {
  }

  /** The skip handler walks description, categories, closed; it changes no
      other window and never touches the contexts below the top one. */
  lemma SkipSteps(stack: seq<Frame>)
    requires stack != []
    ensures var o := Skip(stack);
      var n := |stack| - 1;
      && !o.raised
      && (stack[n].state == AddingDescription ==>
            |o.after| == |stack| && o.after[..n] == stack[..n] && o.after[n] == Frame(AddingCategories, stack[n].tasks))
      && (stack[n].state == AddingCategories ==> o.after == stack[..n])
      && (stack[n].state != AddingDescription && stack[n].state != AddingCategories ==> o.after == stack)
  {
    var o := Skip(stack);
    var n := |stack| - 1;
    if stack[n].state == AddingDescription {
      assert o.after[..n] == (stack[..n] + [stack[n].(state := AddingCategories)])[..n];
    }
  }

  /** The stack changes by at most one context per event, and shrinks only
      when `/skip` closes the categories window. */
  lemma DepthChangesByOne(stack: seq<Frame>, e: LegacyEvent, l: Response<seq<TaskJson>>)
    ensures var o := LegacyNext(stack, e, l);
      && |stack| - 1 <= |o.after| <= |stack| + 1
      && (|o.after| < |stack| <==>
            e.Text? && IsSkipWord(e.text) && stack != [] && stack[|stack| - 1].state == AddingCategories)
  {
  }

  /** Unlike the description window of dialogs.py, the skip filter here
      neither strips the text nor accepts surrounding whitespace. */
  lemma SkipFilterDoesNotStrip()
    ensures IsSkipWord("/SKIP") && !IsSkipWord(" /skip ")
    ensures Dialogs.IsSkipCommand(" /skip ")
  {
    assert TrimStart(" /skip ") == TrimStart("/skip ") == "/skip ";
    assert TrimEnd("/skip ") == TrimEnd("/skip") == "/skip";
  }

  /** Free text in an input window never advances the dialog. */
  lemma TextNeverAdvances(stack: seq<Frame>, text: string, l: Response<seq<TaskJson>>)
    requires !IsSkipWord(text)
    ensures LegacyNext(stack, Text(text), l).after == stack
    ensures LegacyNext(stack, Text(text), l).raised <==> stack != [] && IsInputWindow(stack[|stack| - 1].state)
  {
  }
}
