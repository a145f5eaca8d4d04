/** The bot's view of the backend: the decoded task objects it reads, the
    requests it sends, and how each APIClient turns an HTTP outcome into a
    result. The network itself is an input: a `Response` is either a status
    with a decoded body or a failure (connection error, timeout, a body that
    is not JSON), which the clients catch. */
module ApiClient {
  import opened Common

  /** One key of a decoded JSON object: missing, `null`, or a value. */
  datatype Field<+T> = Absent | Null | Value(v: T)

  /** A decoded task object, reduced to the keys the bot reads; `otherKeys`
      counts the keys it never reads (`id`, `description`, ...), which
      matter only for the object's truth value. */
  datatype TaskJson = TaskJson(
    title: Field<string>,
    createdAt: Field<string>,
    dueDate: Field<string>,
    categories: Field<seq<string>>,
    otherKeys: nat)

  predicate IsEmptyObject(t: TaskJson) {
    t.title.Absent? && t.createdAt.Absent? && t.dueDate.Absent? && t.categories.Absent? && t.otherKeys == 0
  }

  /** Python's truth value of a dict: true when it has at least one key. */
  predicate Truthy(t: TaskJson) {
    !IsEmptyObject(t)
  }

  /** `f"{task.get(key, default)}"` for a text-valued key (`null` prints as `None`). */
  function GetText(f: Field<string>, default: string): string {
    match f
    case Absent => default
    case Null => "None"
    case Value(s) => s
  }

  /** `f"{task[key]}"`; `None` when the lookup raises `KeyError`. */
  function SubscriptText(f: Field<string>): (r: Option<string>)
    ensures r.None? <==> f.Absent?
    ensures r.Some? ==> r.value == GetText(f, "")
  {
    match f
    case Absent => None
    case Null => Some("None")
    case Value(s) => Some(s)
  }

  /** Truth value of `task.get(key)` for a text-valued key. */
  predicate TextTruthy(f: Field<string>) {
    f.Value? && f.v != ""
  }

  /** Truth value of `task.get(key)` for a list-valued key. */
  predicate ListTruthy<T>(f: Field<seq<T>>) {
    f.Value? && |f.v| > 0
  }

  /** `str(task)` for a create result whose truth value is false. */
  function FalsyCreatedText(created: Option<TaskJson>): string
    requires created.Some? ==> !Truthy(created.value)
  {
    if created.None? then "None" else "{}"
  }

  datatype Response<+B> = Status(code: int, body: B) | Failed

  /** The JSON body of a create request. `description: None` means the key is not sent. */
  datatype CreatePayload = CreatePayload(title: string, description: Option<string>, user: int)

  /** A request the bot sends, by path relative to the configured API base URL. */
  datatype BackendCall = NoCall | GetTasks(path: string) | PostTask(path: string, payload: CreatePayload)

  const TasksPath := "/tasks/"

  function TelegramTasksPath(telegramUserId: int): string {
    "/telegram/user/" + IntText(telegramUserId) + "/tasks/"
  }

  /** The demo owner every task created from dialogs.py is sent for. */
  const DemoUser: int := 1

  // ---------------------------------------------------------------------
  // dialogs.py APIClient (the same list mapping is used by bot.py)

  /** `get_user_tasks`: the decoded body on status 200, otherwise (any other
      status, or a failure) the empty list. */
  function FetchedTasks(r: Response<seq<TaskJson>>): (tasks: seq<TaskJson>)
    ensures r.Status? && r.code == 200 ==> tasks == r.body
    ensures tasks != [] ==> r == Status(200, tasks)
  {
    if r.Status? && r.code == 200 then r.body else []
  }

  /** `create_task`: the decoded body on status 200 or 201, otherwise `None`. */
  function CreatedTask(r: Response<TaskJson>): (created: Option<TaskJson>)
    ensures created.Some? <==> r.Status? && (r.code == 200 || r.code == 201)
    ensures created.Some? ==> created.value == r.body
  {
    if r.Status? && (r.code == 200 || r.code == 201) then Some(r.body) else None
  }

  /** The request `create_task` sends: the description is always sent and
      the owner is always the demo user, whatever the Telegram id. */
  function CreateRequest(title: string, description: string, telegramUserId: int): (call: BackendCall)
    ensures call.PostTask? && call.path == TasksPath
    ensures call.payload.title == title && call.payload.description == Some(description)
    ensures call.payload.user == DemoUser
  {
    PostTask(TasksPath, CreatePayload(title, Some(description), DemoUser))
  }

  // ---------------------------------------------------------------------
  // bot.py APIClient

  /** bot.py's `create_task`: only status 201 counts as success. */
  function LegacyCreatedTask(r: Response<TaskJson>): (created: Option<TaskJson>)
    ensures created.Some? <==> r.Status? && r.code == 201
    ensures created.Some? ==> created.value == r.body
  {
    if r.Status? && r.code == 201 then Some(r.body) else None
  }

  /** bot.py's request: only title and user are sent; the description is dropped. */
  function LegacyCreateRequest(title: string, description: string, userId: int): (call: BackendCall)
    ensures call.PostTask? && call.path == TasksPath
    ensures call.payload == CreatePayload(title, None, userId)
  {
    PostTask(TasksPath, CreatePayload(title, None, userId))
  }

  // ---------------------------------------------------------------------
  // Properties of the mappings

  /** A failed call, any status but 200, and a user with no tasks all give the same list. */
  lemma ListFailureLooksEmpty(r: Response<seq<TaskJson>>)
    requires r.Failed? || r.code != 200
    ensures FetchedTasks(r) == FetchedTasks(Status(200, []))
  {
  }

  /** Where bot.py's client reports success, dialogs.py's client reports the
      same task; a 200 answer is success only for dialogs.py. */
  lemma LegacyCreateStricter(r: Response<TaskJson>)
    ensures LegacyCreatedTask(r).Some? ==> CreatedTask(r) == LegacyCreatedTask(r)
    ensures r.Status? && r.code == 200 ==> CreatedTask(r).Some? && LegacyCreatedTask(r).None?
  {
  }

  /** The Telegram id has no influence on what dialogs.py asks the backend to create. */
  lemma CreateRequestIgnoresTelegramId(title: string, description: string, id1: int, id2: int)
    ensures CreateRequest(title, description, id1) == CreateRequest(title, description, id2)
  {
  }

  /** Whatever description is given, bot.py sends the same request. */
  lemma LegacyRequestDropsDescription(title: string, d1: string, d2: string, userId: int)
    ensures LegacyCreateRequest(title, d1, userId) == LegacyCreateRequest(title, d2, userId)
  {
  }
}
