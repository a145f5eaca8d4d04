/** The dialogs.py conversation: one context per Telegram user, holding the
    current window (state) and the `dialog_data` dictionary. Each handler
    is one transition; the backend answers are inputs. `Next` is the
    transition function and `DialogContext` the context the handlers
    update in place. */
module Dialogs {
  import opened Common
  import opened ApiClient
  import Render

  datatype DialogState = MainMenu | AddingTitle | AddingDescription | ViewingTasks

  /** The keys the handlers write into `dialog_data`; `None` is a missing key. */
  datatype DialogData = DialogData(
    title: Option<string>,
    description: Option<string>,
    tasks: Option<seq<TaskJson>>)

  const EmptyData := DialogData(None, None, None)

  datatype Session = Session(state: DialogState, data: DialogData)

  /** The context `/start` opens: the main menu with empty dialog data. */
  const Started := Session(MainMenu, EmptyData)

  /** What reaches the dialog: the `/start` command, the buttons, and any other message text. */
  datatype Event = Start | AddTaskButton | ViewTasksButton | Message(text: string) | SkipButton | BackButton

  /** What a transition does besides changing the session: the backend
      request it sends, the replies it sends to the chat, and whether the
      handler ended by raising. */
  datatype Effects = Effects(call: BackendCall, replies: seq<string>, raised: bool)

  const NoEffects := Effects(NoCall, [], false)

  datatype Outcome = Outcome(after: Session, effects: Effects)

  const WelcomeText := "Welcome to the ToDo List Bot!"
  const CreateErrorText := "Error creating task"
  const CreatedPrefix := "Task created successfully: "

  function TitleAck(title: string): string {
    "Title set to: " + title + ". Now send description or /skip."
  }

  /** `text.strip().lower() == "/skip"`. */
  predicate IsSkipCommand(text: string) {
    IsSkipWord(Strip(text))
  }

  /** The description a text in the description window stands for: none for the skip command, else the text. */
  function DescriptionInput(text: string): string {
    if IsSkipCommand(text) then "" else text
  }

  /** `dialog_data.get("title", "Untitled")`: the title sent to the backend. */
  function DraftTitle(data: DialogData): string {
    data.title.GetOr("Untitled")
  }

  /** `description_getter`: `dialog_data.get("title", "New Task")`. */
  function DescriptionGetter(data: DialogData): (title: string)
    ensures data.title.Some? ==> title == data.title.value
    ensures data.title.None? ==> title == "New Task"
  {
    data.title.GetOr("New Task")
  }

  /** Which events each window of the dialog has a handler for. */
  function WindowHandles(state: DialogState, e: Event): (handled: bool)
    ensures e.Start? ==> !handled
    ensures e.BackButton? ==> (handled <==> state != MainMenu)
    ensures e.Message? ==> (handled <==> state == AddingTitle || state == AddingDescription)
    ensures e.SkipButton? ==> (handled <==> state == AddingDescription)
  {
    match state
    case MainMenu => e.ViewTasksButton? || e.AddTaskButton?
    case AddingTitle => e.Message? || e.BackButton?
    case AddingDescription => e.Message? || e.SkipButton? || e.BackButton?
    case ViewingTasks => e.BackButton?
  }

  /** The end of every create path, once `create_task` has answered: a
      truthy result is reported by its title (and `task['title']` raises
      when the key is missing, before the switch to the main menu);
      anything else is reported as an error. The button's error text also
      shows the result. */
  function Finish(state: DialogState, data: DialogData, call: BackendCall,
                  created: Option<TaskJson>, fromButton: bool): (o: Outcome)
    ensures o.effects.call == call && o.after.data == data
    ensures o.effects.raised ==> o.after.state == state && o.effects.replies == []
    ensures !o.effects.raised ==> o.after.state == MainMenu && |o.effects.replies| == 1
    ensures o.effects.raised <==> created.Some? && Truthy(created.value) && created.value.title.Absent?
  {
    if created.Some? && Truthy(created.value) then
      match SubscriptText(created.value.title)
      case None => Outcome(Session(state, data), Effects(call, [], true))
      case Some(title) => Outcome(Session(MainMenu, data), Effects(call, [CreatedPrefix + title], false))
    else
      var text := if fromButton then CreateErrorText + " " + FalsyCreatedText(created) else CreateErrorText;
      Outcome(Session(MainMenu, data), Effects(call, [text], false))
  }

  /** One transition. `telegramUserId` is the sender; `listReply` and
      `createReply` are what the backend answers to the request the
      transition sends, if it sends one. */
  function Next(s: Session, e: Event, telegramUserId: int,
                listReply: Response<seq<TaskJson>>, createReply: Response<TaskJson>): (o: Outcome)
    ensures o.effects.call.PostTask? ==> o.effects.call.payload.user == DemoUser
    ensures o.effects.raised ==> o.effects.call.PostTask? && o.after.state == s.state
  {
    match e
    case Start =>
      Outcome(Started, Effects(NoCall, [WelcomeText], false))
    case AddTaskButton =>
      if s.state == MainMenu then
        Outcome(Session(AddingTitle, s.data.(title := Some(""), description := Some(""))), NoEffects)
      else Outcome(s, NoEffects)
    case ViewTasksButton =>
      if s.state == MainMenu then
        Outcome(Session(ViewingTasks, s.data.(tasks := Some(FetchedTasks(listReply)))),
                Effects(GetTasks(TelegramTasksPath(telegramUserId)), [], false))
      else Outcome(s, NoEffects)
    case Message(text) =>
      if s.state == AddingTitle then
        Outcome(Session(AddingDescription, s.data.(title := Some(text))), Effects(NoCall, [TitleAck(text)], false))
      else if s.state == AddingDescription then
        var description := DescriptionInput(text);
        Finish(s.state, s.data.(description := Some(description)),
               CreateRequest(DraftTitle(s.data), description, telegramUserId), CreatedTask(createReply), false)
      else Outcome(s, NoEffects)
    case SkipButton =>
      if s.state == AddingDescription then
        Finish(s.state, s.data.(description := Some("")),
               CreateRequest(DraftTitle(s.data), "", telegramUserId), CreatedTask(createReply), true)
      else Outcome(s, NoEffects)
    case BackButton =>
      if s.state != MainMenu then Outcome(Session(MainMenu, s.data), NoEffects) else Outcome(s, NoEffects)
  }

  /** The text of the window shown for a session. */
  function WindowText(s: Session): (text: string)
    ensures s.state == AddingDescription ==> StartsWith(text, "Current task: " + DescriptionGetter(s.data))
    ensures s.state == ViewingTasks && s.data.tasks.None? ==> text == Render.NoTasksText
    ensures s.state == ViewingTasks && s.data.tasks.Some? && s.data.tasks.value != [] ==> |text| > 0 && text[0] == '•'
  {
    match s.state
    case MainMenu => "Welcome! Choose an option:"
    case AddingTitle => "Please enter the task title:"
    case AddingDescription =>
      "Current task: " + DescriptionGetter(s.data) + "\n\nEnter description or press 'Skip':"
    case ViewingTasks => Render.TasksText(s.data.tasks.GetOr([]))
  }

  // ---------------------------------------------------------------------
  // The per-user context, updated in place by the handlers

  class DialogContext {
    var state: DialogState
    var dialogData: DialogData

    function Current(): Session
      reads this
    {
      Session(state, dialogData)
    }

    /** `/start` on a user without a context. */
    constructor ()
      ensures Current() == Started
    {
      state := MainMenu;
      dialogData := EmptyData;
    }

    /** `start_command`: greets and restarts the dialog at the main menu with a new, empty context. */
    method StartCommand() returns (replies: seq<string>)
      modifies this
      ensures Current() == Started && replies == [WelcomeText]
    {
      replies := [WelcomeText];
      state := MainMenu;
      dialogData := EmptyData;
    }

    /** `show_main_menu` (every Back button). */
    method ShowMainMenu()
      modifies this
      ensures state == MainMenu && dialogData == old(dialogData)
    {
      state := MainMenu;
    }

    /** `show_add_title`. */
    method ShowAddTitle()
      modifies this
      ensures state == AddingTitle
      ensures dialogData == old(dialogData).(title := Some(""), description := Some(""))
    {
      dialogData := dialogData.(title := Some(""));
      dialogData := dialogData.(description := Some(""));
      state := AddingTitle;
    }

    /** `show_view_tasks`. */
    method ShowViewTasks(telegramUserId: int, reply: Response<seq<TaskJson>>) returns (call: BackendCall)
      modifies this
      ensures call == GetTasks(TelegramTasksPath(telegramUserId))
      ensures state == ViewingTasks && dialogData == old(dialogData).(tasks := Some(FetchedTasks(reply)))
    {
      call := GetTasks(TelegramTasksPath(telegramUserId));
      var tasks := FetchedTasks(reply);
      dialogData := dialogData.(tasks := Some(tasks));
      state := ViewingTasks;
    }

    /** `process_title`. */
    method ProcessTitle(text: string) returns (replies: seq<string>)
      modifies this
      ensures state == AddingDescription && dialogData == old(dialogData).(title := Some(text))
      ensures replies == [TitleAck(text)]
    {
      var title := text;
      dialogData := dialogData.(title := Some(title));
      replies := [TitleAck(title)];
      state := AddingDescription;
    }

    /** The common tail of the create handlers: call the backend, report, switch to the main menu. */
    method CreateAndReport(title: string, description: string, telegramUserId: int,
                           reply: Response<TaskJson>, fromButton: bool) returns (effects: Effects)
      modifies this
      ensures Outcome(Current(), effects) ==
        Finish(old(state), old(dialogData), CreateRequest(title, description, telegramUserId),
               CreatedTask(reply), fromButton)
    {
      var call := CreateRequest(title, description, telegramUserId);
      var task := CreatedTask(reply);
      if task.Some? && Truthy(task.value) {
        if task.value.title.Absent? {
          effects := Effects(call, [], true);
          return;
        }
        effects := Effects(call, [CreatedPrefix + GetText(task.value.title, "")], false);
      } else if fromButton {
        effects := Effects(call, [CreateErrorText + " " + FalsyCreatedText(task)], false);
      } else {
        effects := Effects(call, [CreateErrorText], false);
      }
      state := MainMenu;
    }

    /** `process_description`. */
    method ProcessDescription(text: string, telegramUserId: int, reply: Response<TaskJson>)
      returns (effects: Effects)
      modifies this
      ensures Outcome(Current(), effects) ==
        Finish(old(state), old(dialogData).(description := Some(DescriptionInput(text))),
               CreateRequest(DraftTitle(old(dialogData)), DescriptionInput(text), telegramUserId),
               CreatedTask(reply), false)
    {
      if IsSkipCommand(text) {
        var title := DraftTitle(dialogData);
        dialogData := dialogData.(description := Some(""));
        effects := CreateAndReport(title, "", telegramUserId, reply, false);
        return;
      }
      var description := text;
      dialogData := dialogData.(description := Some(description));
      var title := DraftTitle(dialogData);
      effects := CreateAndReport(title, description, telegramUserId, reply, false);
    }

    /** `skip_description_handler`. */
    method SkipDescription(telegramUserId: int, reply: Response<TaskJson>) returns (effects: Effects)
      modifies this
      ensures Outcome(Current(), effects) ==
        Finish(old(state), old(dialogData).(description := Some("")),
               CreateRequest(DraftTitle(old(dialogData)), "", telegramUserId), CreatedTask(reply), true)
    {
      var title := DraftTitle(dialogData);
      dialogData := dialogData.(description := Some(""));
      effects := CreateAndReport(title, "", telegramUserId, reply, true);
    }

    /** Routes an event to the handler of the current window (and `/start` to `start_command`). */
    method Handle(e: Event, telegramUserId: int,
                  listReply: Response<seq<TaskJson>>, createReply: Response<TaskJson>) returns (effects: Effects)
      modifies this
      ensures Outcome(Current(), effects) == Next(old(Current()), e, telegramUserId, listReply, createReply)
    {
      effects := NoEffects;
      match e
      case Start =>
        var replies := StartCommand();
        effects := Effects(NoCall, replies, false);
      case AddTaskButton =>
        if state == MainMenu {
          ShowAddTitle();
        }
      case ViewTasksButton =>
        if state == MainMenu {
          var call := ShowViewTasks(telegramUserId, listReply);
          effects := Effects(call, [], false);
        }
      case Message(text) =>
        if state == AddingTitle {
          var replies := ProcessTitle(text);
          effects := Effects(NoCall, replies, false);
        } else if state == AddingDescription {
          effects := ProcessDescription(text, telegramUserId, createReply);
        }
      case SkipButton =>
        if state == AddingDescription {
          effects := SkipDescription(telegramUserId, createReply);
        }
      case BackButton =>
        if state != MainMenu {
          ShowMainMenu();
        }
    }
  }

  // ---------------------------------------------------------------------
  // Properties of single transitions

  /** "Add Task" blanks title and description and opens the title window; `tasks` is kept. */
  lemma AddTaskResetsDraft(s: Session, id: int, l: Response<seq<TaskJson>>, c: Response<TaskJson>)
    requires s.state == MainMenu
    ensures var o := Next(s, AddTaskButton, id, l, c);
      && o.after.state == AddingTitle
      && o.after.data.title == Some("") && o.after.data.description == Some("")
      && o.after.data.tasks == s.data.tasks
      && o.effects == NoEffects
  {
  }

  /** In the title window every text, the empty one included, becomes the title verbatim. */
  lemma TitleStoredVerbatim(s: Session, text: string, id: int, l: Response<seq<TaskJson>>, c: Response<TaskJson>)
    requires s.state == AddingTitle
    ensures var o := Next(s, Message(text), id, l, c);
      && o.after.state == AddingDescription
      && o.after.data.title == Some(text)
      && o.after.data.description == s.data.description && o.after.data.tasks == s.data.tasks
      && o.effects.call == NoCall && o.effects.replies == [TitleAck(text)]
  {
  }

  /** In the description window a text that strips and lower-cases to
      "/skip" creates the task with an empty description; any other text
      is stored and sent unchanged. The title sent is the stored one,
      or "Untitled" when the key is missing. */
  lemma DescriptionOrSkip(s: Session, text: string, id: int, l: Response<seq<TaskJson>>, c: Response<TaskJson>)
    requires s.state == AddingDescription
    ensures var o := Next(s, Message(text), id, l, c);
      var description := if IsSkipCommand(text) then "" else text;
      && o.effects.call == CreateRequest(s.data.title.GetOr("Untitled"), description, id)
      && o.after.data == s.data.(description := Some(description))
  {
  }

  lemma SkipCommandExamples()
    ensures IsSkipCommand("/skip") && IsSkipCommand(" /SKIP ") && IsSkipCommand("\t/Skip\n")
    ensures !IsSkipCommand("/skip now") && !IsSkipCommand("skip")
  {
    assert TrimStart("/skip") == "/skip";
    assert TrimEnd("/skip") == "/skip";
    assert TrimStart(" /SKIP ") == TrimStart("/SKIP ") == "/SKIP ";
    assert TrimEnd("/SKIP ") == TrimEnd("/SKIP") == "/SKIP";
    assert TrimStart("\t/Skip\n") == TrimStart("/Skip\n") == "/Skip\n";
    assert TrimEnd("/Skip\n") == TrimEnd("/Skip") == "/Skip";
    assert TrimStart("/skip now") == "/skip now";
    assert TrimEnd("/skip now") == "/skip now";
    assert TrimStart("skip") == "skip";
    assert TrimEnd("skip") == "skip";
  }

  /** Every create path ends in the main menu, whether the backend returned
      a task or not, unless the handler raised, which happens only for a
      truthy result without a "title" key. The single reply announces
      success exactly when the result is truthy. */
  lemma CreateEndsInMainMenu(s: Session, e: Event, id: int, l: Response<seq<TaskJson>>, c: Response<TaskJson>)
    requires s.state == AddingDescription && (e.Message? || e.SkipButton?)
    ensures var o := Next(s, e, id, l, c);
      var created := CreatedTask(c);
      var truthy := created.Some? && Truthy(created.value);
      && o.effects.call.PostTask?
      && o.after.data.title == s.data.title && o.after.data.tasks == s.data.tasks
      && (o.effects.raised <==> truthy && created.value.title.Absent?)
      && (!o.effects.raised ==>
            o.after.state == MainMenu && |o.effects.replies| == 1 &&
            (StartsWith(o.effects.replies[0], CreatedPrefix) <==> truthy))
      && (truthy && !o.effects.raised ==>
            o.effects.replies == [CreatedPrefix + SubscriptText(created.value.title).value])
      && (!truthy ==>
            o.effects.replies == [if e.SkipButton? then CreateErrorText + " " + FalsyCreatedText(created) else CreateErrorText])
  {
    var o := Next(s, e, id, l, c);
    if !o.effects.raised {
      var r := o.effects.replies[0];
      if StartsWith(r, CreatedPrefix) {
        assert r[0] == 'T';
      }
    }
  }

  /** Add a task titled "Buy milk" and skip the description: the backend is
      asked for that title with an empty description, and the dialog
      reports it and returns to the main menu, the draft still in place. */
  lemma AddThenSkipScenario(id: int, created: TaskJson, l: Response<seq<TaskJson>>)
    requires created.title == Value("Buy milk")
    ensures var s1 := Next(Started, AddTaskButton, id, l, Failed).after;
      var s2 := Next(s1, Message("Buy milk"), id, l, Failed).after;
      var o := Next(s2, SkipButton, id, l, Status(201, created));
      && s1.state == AddingTitle && s2.state == AddingDescription
      && o.effects.call == PostTask(TasksPath, CreatePayload("Buy milk", Some(""), DemoUser))
      && o.effects.replies == ["Task created successfully: Buy milk"] && !o.effects.raised
      && o.after == Session(MainMenu, DialogData(Some("Buy milk"), Some(""), None))
  {
    var s1 := Next(Started, AddTaskButton, id, l, Failed).after;
    assert s1 == Session(AddingTitle, DialogData(Some(""), Some(""), None));
    var s2 := Next(s1, Message("Buy milk"), id, l, Failed).after;
    assert s2 == Session(AddingDescription, DialogData(Some("Buy milk"), Some(""), None));
    assert SubscriptText(created.title) == Some("Buy milk");
    var o := Next(s2, SkipButton, id, l, Status(201, created));
    assert o.effects.replies == [CreatedPrefix + "Buy milk"];
    assert CreatedPrefix + "Buy milk" == "Task created successfully: Buy milk";
  }

  /** "View Tasks" always opens the task list with the fetched list stored. */
  lemma ViewTasksAlwaysViewing(s: Session, id: int, l: Response<seq<TaskJson>>, c: Response<TaskJson>)
    requires s.state == MainMenu
    ensures var o := Next(s, ViewTasksButton, id, l, c);
      && o.after.state == ViewingTasks
      && o.after.data == s.data.(tasks := Some(FetchedTasks(l)))
      && o.effects.call == GetTasks(TelegramTasksPath(id))
  {
  }

  /** A failed fetch and a user without tasks lead to the same session and the same window. */
  lemma FetchFailureLooksLikeNoTasks(s: Session, id: int, l: Response<seq<TaskJson>>, c: Response<TaskJson>)
    requires l.Failed? || l.code != 200
    ensures Next(s, ViewTasksButton, id, l, c) == Next(s, ViewTasksButton, id, Status(200, []), c)
    ensures s.state == MainMenu ==>
      WindowText(Next(s, ViewTasksButton, id, l, c).after) == Render.NoTasksText
  {
  }

  /** Back returns to the main menu and keeps the draft. */
  lemma BackKeepsDraft(s: Session, id: int, l: Response<seq<TaskJson>>, c: Response<TaskJson>)
    requires s.state != MainMenu
    ensures Next(s, BackButton, id, l, c) == Outcome(Session(MainMenu, s.data), NoEffects)
  {
  }

  /** An event the current window has no handler for (and that is not
      `/start`) changes nothing and calls nothing; every handled one
      changes the window or calls the backend. */
  lemma UnhandledEventsAreIgnored(s: Session, e: Event, id: int, l: Response<seq<TaskJson>>, c: Response<TaskJson>)
    ensures !e.Start? && !WindowHandles(s.state, e) ==> Next(s, e, id, l, c) == Outcome(s, NoEffects)
    ensures WindowHandles(s.state, e) ==>
      Next(s, e, id, l, c).after.state != s.state || Next(s, e, id, l, c).effects.call != NoCall
  {
  }

  /** The backend is called by "View Tasks" in the main menu and by the two
      create handlers in the description window, and by nothing else. */
  lemma BackendCalls(s: Session, e: Event, id: int, l: Response<seq<TaskJson>>, c: Response<TaskJson>)
    ensures Next(s, e, id, l, c).effects.call != NoCall <==>
      (s.state == MainMenu && e.ViewTasksButton?) ||
      (s.state == AddingDescription && (e.Message? || e.SkipButton?))
  {
  }

  // ---------------------------------------------------------------------
  // Properties of conversations

  datatype Input = Input(event: Event, telegramUserId: int,
                         listReply: Response<seq<TaskJson>>, createReply: Response<TaskJson>)

  /** The session after a sequence of inputs. */
  function Run(s: Session, inputs: seq<Input>): Session
    decreases |inputs|
  {
    if inputs == [] then s
    else
      var i := inputs[0];
      Run(Next(s, i.event, i.telegramUserId, i.listReply, i.createReply).after, inputs[1..])
  }

  /** What the windows rely on: the title window is entered with a blank
      draft, the description window always has a stored title and
      description, and the task list window always has a stored list. */
  predicate Consistent(s: Session) {
    && (s.state == AddingTitle ==> s.data.title == Some("") && s.data.description == Some(""))
    && (s.state == AddingDescription ==> s.data.title.Some? && s.data.description.Some?)
    && (s.state == ViewingTasks ==> s.data.tasks.Some?)
  }

  lemma NextConsistent(s: Session, e: Event, id: int, l: Response<seq<TaskJson>>, c: Response<TaskJson>)
    requires Consistent(s)
    ensures Consistent(Next(s, e, id, l, c).after)
  {
  }

  lemma {:induction false} RunConsistent(s: Session, inputs: seq<Input>)
    requires Consistent(s)
    decreases |inputs|
    ensures Consistent(Run(s, inputs))
  {
    if inputs != [] {
      var i := inputs[0];
      NextConsistent(s, i.event, i.telegramUserId, i.listReply, i.createReply);
      RunConsistent(Next(s, i.event, i.telegramUserId, i.listReply, i.createReply).after, inputs[1..]);
    }
  }

  /** In every conversation that began with `/start`, the defaults are never
      used: a created task carries the title the user typed (never
      "Untitled"), and the description window shows it (never "New Task"). */
  lemma StoredTitleAlwaysUsed(inputs: seq<Input>, e: Event, id: int, l: Response<seq<TaskJson>>, c: Response<TaskJson>)
    ensures var s := Run(Started, inputs);
      var o := Next(s, e, id, l, c);
      && (o.effects.call.PostTask? ==> s.data.title.Some? && o.effects.call.payload.title == s.data.title.value)
      && (s.state == AddingDescription ==>
            s.data.title.Some? &&
            WindowText(s) == "Current task: " + s.data.title.value + "\n\nEnter description or press 'Skip':")
  {
    RunConsistent(Started, inputs);
  }
}
