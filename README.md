# Fynth/tz2 — a Dafny model of the ToDo bot and its task API

This project models the logic core of a Telegram ToDo bot and the Django
REST API behind it, and proves properties of that model:

- **Bot dialog** (`dialogs.dfy`): the per-user dialog of `src/bot/dialogs.py`.
  - A context is a window (main menu, title entry, description entry, task list) plus `dialog_data` with the keys `title`, `description` and `tasks`.
  - `Dialogs.Next` is the transition function over events: `/start`, the buttons, and message text.
  - `Dialogs.DialogContext` is the context the handlers update in place. Its `Handle` method is proved to perform exactly `Next`.
  - Backend answers are inputs: a status with a decoded body, or a failure.
- **Legacy bot** (`legacy_bot.dfy`): the older bot of `src/bot/bot.py`.
  - It keeps a stack of dialog contexts, driven by `/start`, `/add_task`, `/todo` and `/skip`.
  - `LegacyBot.DialogStack` is the stack as updated in place.
- **Backend client** (`api_client.dfy`): what each `APIClient` sends, and how it maps an HTTP outcome to a result.
- **Task lists** (`render.dfy`): the task-list texts, each built by the same appending loop as the source and proved equal to a recursive definition.
- **Record ids** (`id_generator.dfy`, `models.dfy`): the generated ids and the `CustomIDField` that assigns them on insert.
- **Database and API** (`models.dfy`, `serializers.dfy`, `views.dfy`):
  - The database is a `Store` of users, tasks and categories, kept in each model's ordering.
  - The serializer's `create` and `update` rules.
  - The views' visibility rule, task lookup by id, the task-create path and the bot's per-Telegram-id endpoint.
  - Authentication and payload validity are inputs.

Some behaviour of the code worth knowing before reading the lemmas:

- A title is stored as typed, even when empty (`Dialogs.TitleStoredVerbatim`).
- The draft is never cleared, either on Back or after a create (`Dialogs.BackKeepsDraft`, `Dialogs.CreateEndsInMainMenu`).
- A failed fetch is indistinguishable from an empty list (`Dialogs.FetchFailureLooksLikeNoTasks`).
- No error kinds are told apart.
- There is no session store, no idle eviction and no session timeout; the dialog library keeps one context per user.
- In the description window, `/skip` is recognised after `strip().lower()`; bot.py's skip filter lower-cases only (`LegacyBot.SkipFilterDoesNotStrip`).
- The API strips surrounding whitespace from the title, the description and each category id during validation (`Serializers.ReadOnlyFieldsDropped`).

## Model

| member | source | states |
|---|---|---|
| ApiClient.FetchedTasks | src/bot/dialogs.py:33-45 | the decoded body is the list exactly on status 200; a non-empty result implies status 200 with that body |
| ApiClient.ListFailureLooksEmpty | src/bot/bot.py:36-45 | a failure or any non-200 status gives the same list as a user with no tasks |
| ApiClient.CreatedTask | src/bot/dialogs.py:58-69 | a task is returned exactly on status 200 or 201, and it is the response body |
| ApiClient.CreateRequest | src/bot/dialogs.py:47-56 | the create request is a POST to /tasks/ with the given title and description and user 1 |
| ApiClient.CreateRequestIgnoresTelegramId | src/bot/dialogs.py:52-56 | the Telegram id has no influence on the request |
| ApiClient.LegacyCreatedTask | src/bot/bot.py:54-62 | bot.py's client succeeds only on status 201 |
| ApiClient.LegacyCreateRequest | src/bot/bot.py:47-53 | bot.py sends only title and user |
| ApiClient.LegacyRequestDropsDescription | src/bot/bot.py:50-53 | the description given has no influence on bot.py's request |
| ApiClient.LegacyCreateStricter | src/bot/bot.py:56-57 | every bot.py success is a dialogs.py success with the same task; status 200 succeeds only for dialogs.py |
| ApiClient.SubscriptText | src/bot/dialogs.py:153 | `task['title']` fails exactly when the key is missing |
| Render.TasksText | src/bot/dialogs.py:79-85 | an empty list shows "No tasks found."; a non-empty one starts with a bullet and is never that text |
| Render.TasksGetter | src/bot/dialogs.py:77-87 | the accumulating loop yields exactly the task list text of the stored list, the empty list when none is stored |
| Render.LinesAppend | src/bot/dialogs.py:82-83 | the lines of two lists joined are the lines of each, joined |
| Render.LineAt | src/bot/dialogs.py:82-83 | task i's line stands in the text right after the lines of the tasks before it |
| Render.OneLinePerTask | src/bot/dialogs.py:82-83 | with no line break in titles or dates, the text has exactly one line per task |
| Render.RenderLegacyTasks | src/bot/bot.py:143-154 | the `/todo` loop yields the per-task blocks in order, "No tasks found." for no tasks, and raises when a lookup fails |
| Render.LegacyRaisesIff | src/bot/bot.py:145-146 | rendering raises exactly when some task lacks title or created_at |
| Render.BlocksAppend | src/bot/bot.py:145-152 | the blocks of two lists joined are the blocks of each, joined, and raising in either raises |
| Render.BlockExtendsTaskLine | src/bot/bot.py:146-152 | a block is the dialogs.py line of the task followed by the optional due and categories lines and a blank line |
| Render.BlockLineCount | src/bot/bot.py:146-152 | a block has two line breaks, plus one for a truthy due date, plus one for non-empty categories |
| Render.ViewingWindowText | src/bot/bot.py:111-114 | the task list window shows "Your tasks:" and then the supplied text, or "No tasks found" when none is supplied |
| Dialogs.DescriptionGetter | src/bot/dialogs.py:91-93 | the description window shows the stored title, "New Task" when none is stored |
| Dialogs.Finish | src/bot/dialogs.py:149-192 | the end of a create keeps the dialog data; it raises, with no reply and the window kept, exactly when a truthy result lacks "title"; otherwise one reply and the main menu |
| Dialogs.WindowHandles | src/bot/dialogs.py:196-226 | the windows' widgets: Back exists everywhere but the main menu, message input only in the title and description windows, Skip only in the description window, and no window handles `/start` |
| Dialogs.WindowText | src/bot/dialogs.py:196-226 | the description window shows "Current task: " and the stored title; the task list shows "No tasks found." when no list is stored, and bullet lines for a non-empty list |
| Dialogs.Next | src/bot/dialogs.py:97-192 | every create request is for user 1; a handler raises only on a create path and then stays in its window |
| Dialogs.DialogContext.constructor | src/bot/main.py:24-29 | a new context is the main menu with empty dialog data |
| Dialogs.DialogContext.StartCommand | src/bot/main.py:24-33 | `/start` greets and resets to the main menu with empty data |
| Dialogs.DialogContext.ShowMainMenu | src/bot/dialogs.py:97-100 | Back switches to the main menu and keeps the dialog data |
| Dialogs.DialogContext.ShowAddTitle | src/bot/dialogs.py:103-109 | blanks title and description, keeps tasks, opens the title window |
| Dialogs.DialogContext.ShowViewTasks | src/bot/dialogs.py:112-120 | requests the sender's tasks, stores the fetched list, opens the task list |
| Dialogs.DialogContext.ProcessTitle | src/bot/dialogs.py:124-134 | stores the text as title, acknowledges it, opens the description window |
| Dialogs.DialogContext.CreateAndReport | src/bot/dialogs.py:149-157 | sends the create request, then reports success with the returned title or reports an error, and returns to the main menu |
| Dialogs.DialogContext.ProcessDescription | src/bot/dialogs.py:137-174 | skip text creates with "" and any other text is stored and sent as the description |
| Dialogs.DialogContext.SkipDescription | src/bot/dialogs.py:177-192 | the Skip button creates with "", and its error text shows the result |
| Dialogs.DialogContext.Handle | src/bot/dialogs.py:196-226 | routing an event to its window's handler performs exactly the transition `Next` |
| Dialogs.AddTaskResetsDraft | src/bot/dialogs.py:103-109 | after Add Task: the title window, title and description "", tasks unchanged, no request |
| Dialogs.TitleStoredVerbatim | src/bot/dialogs.py:124-134 | any text, the empty one included, becomes the title; description and tasks stay |
| Dialogs.DescriptionOrSkip | src/bot/dialogs.py:144-167 | the description sent and stored is "" for skip text and the text otherwise; the title sent is the stored one or "Untitled" |
| Common.SkipWordIsLowerSkip | src/bot/dialogs.py:144 | the per-character skip test is lower-casing and comparing with "/skip" |
| Common.StripSpec | src/bot/dialogs.py:144 | `strip()` keeps an infix and drops only whitespace around it |
| Dialogs.SkipCommandExamples | src/bot/dialogs.py:144 | " /SKIP " and "\t/Skip\n" are skip text; "/skip now" and "skip" are not |
| Dialogs.CreateEndsInMainMenu | src/bot/dialogs.py:149-192 | every create path ends in the main menu with the draft kept, unless a truthy result lacks "title"; a truthy result is announced as the prefix followed by its title; otherwise the error text, followed by the result on the button path |
| Dialogs.AddThenSkipScenario | src/bot/dialogs.py:177-192 | Add Task, "Buy milk", Skip: the request carries title "Buy milk" and description "", the reply announces it, and the dialog is back in the main menu |
| Dialogs.ViewTasksAlwaysViewing | src/bot/dialogs.py:112-120 | View Tasks always opens the task list with the fetched list stored |
| Dialogs.FetchFailureLooksLikeNoTasks | src/bot/dialogs.py:39-45 | a failed fetch gives the same session as an empty list, and the window shows "No tasks found." |
| Dialogs.BackKeepsDraft | src/bot/dialogs.py:97-100 | Back returns to the main menu and keeps all dialog data |
| Dialogs.UnhandledEventsAreIgnored | src/bot/dialogs.py:196-226 | an event the window has no handler for changes nothing; a handled one changes window or calls the backend |
| Dialogs.BackendCalls | src/bot/dialogs.py:112-192 | the backend is called exactly by View Tasks in the main menu and by the two create handlers |
| Dialogs.RunConsistent | src/bot/dialogs.py:103-134 | along any conversation, the description window always has a stored title and description and the task list a stored list |
| Dialogs.StoredTitleAlwaysUsed | src/bot/dialogs.py:91-93 | after `/start`, a create request always carries the typed title (never "Untitled") and the description window shows it (never "New Task") |
| LegacyBot.Push | src/bot/bot.py:129-135 | starting a window puts a new context with empty data on top and keeps the rest |
| LegacyBot.Skip | src/bot/bot.py:163-167 | skip sends nothing, raises exactly without a context, and otherwise keeps the contexts below the top and removes at most one |
| LegacyBot.Todo | src/bot/bot.py:139-159 | `/todo` always requests /tasks/; raising leaves the stack; otherwise the contexts below the top stay and the task list opens on top |
| LegacyBot.LegacyNext | src/bot/bot.py:129-174 | only `/todo` calls the backend; a raising handler leaves the stack as it was; the stack grows by at most one |
| LegacyBot.LegacyWindowText | src/bot/bot.py:72-115 | every input window opens with "Please enter "; the task list always shows "Your tasks:" and "No tasks found" |
| LegacyBot.DialogStack.Start | src/bot/bot.py:129-135 | `/start` and `/add_task` push the choosing-action and title windows |
| LegacyBot.DialogStack.ViewTasks | src/bot/bot.py:139-159 | `/todo` fetches, renders, stores the text in the current context and opens the task list, or raises |
| LegacyBot.DialogStack.SkipHandler | src/bot/bot.py:163-167 | `/skip` performs exactly the skip transition |
| LegacyBot.DialogStack.Handle | src/bot/bot.py:170-174 | routing an event to its handler performs exactly the transition `LegacyNext` |
| LegacyBot.TodoStoresTextBelowList | src/bot/bot.py:156-159 | the rendered text lands in the context below the new task list, which shows "No tasks found" |
| LegacyBot.TodoRaisesIff | src/bot/bot.py:143-158 | `/todo` raises exactly without a context or with a task lacking title or created_at, and then changes nothing |
| LegacyBot.TodoIgnoresSender | src/bot/bot.py:30-40 | every sender gets all tasks from /tasks/ |
| LegacyBot.NeverCreates | src/bot/bot.py:170-174 | no handler sends a create request; only `/todo` calls the backend |
| LegacyBot.SkipSteps | src/bot/bot.py:163-167 | skip moves description to categories in the same context, closes the categories context, changes nothing else |
| LegacyBot.DepthChangesByOne | src/bot/bot.py:129-167 | each event changes the stack depth by at most one; it shrinks only when skip closes the categories window |
| LegacyBot.SkipFilterDoesNotStrip | src/bot/bot.py:174 | the skip filter lower-cases but does not strip, unlike dialogs.py |
| LegacyBot.TextNeverAdvances | src/bot/bot.py:81-106 | other text never changes the stack; in an input window its handler raises |
| IdGenerator.TimePart | src/core/id_generator.py:31-33 | the time part is the last ten decimal digits of the timestamp, all of them when there are fewer |
| IdGenerator.HashPart | src/core/id_generator.py:27 | the hash part is the first twelve digest characters upper-cased |
| IdGenerator.GenerateCustomId | src/core/id_generator.py:12-35 | the id starts with the prefix and is at most 22 characters longer |
| IdGenerator.GenerateTaskId | src/core/id_generator.py:38-40 | task ids start with "TASK_" |
| IdGenerator.GenerateCategoryId | src/core/id_generator.py:43-45 | category ids start with "CAT_" |
| IdGenerator.SuffixValue | src/core/id_generator.py:31-33 | the last k digits of a number denote it modulo 10^k |
| IdGenerator.TimePartValue | src/core/id_generator.py:31-33 | from 10^9 microseconds on, the time part has ten digits denoting the timestamp modulo 10^10 |
| IdGenerator.TimePartInjective | src/core/id_generator.py:31-33 | two such timestamps give equal time parts exactly when equal modulo 10^10 |
| IdGenerator.IdShape | src/core/id_generator.py:22-35 | an id is the prefix, ten digits denoting the timestamp modulo 10^10, and the digest's first twelve hex digits upper-cased |
| IdGenerator.CustomIdInjective | src/core/id_generator.py:18-35 | ids agree exactly when the timestamps agree modulo 10^10 and the hash parts agree |
| IdGenerator.DistinctTaskIdsWithinWindow | src/core/id_generator.py:18-35 | task ids from timestamps less than 10^10 microseconds apart differ, whatever the digests |
| IdGenerator.TaskAndCategoryIdsDiffer | src/core/id_generator.py:38-45 | a task id never equals a category id |
| Models.NewTaskFields | src/api/models.py:55-62 | a new task is not completed and has no description, due date, owner or categories; both timestamps are now |
| Models.GeneratedId | src/api/models.py:21-28 | the generated id fits the task-prefix length bound |
| Models.GeneratedIdPrefixes | src/api/models.py:21-28 | "TASK" gives "TASK_" ids, "CAT" gives "CAT_" ids, other prefixes give "TASK_" ids, and every id fits max_length 50 |
| Models.CustomIdField.constructor | src/api/models.py:13-17 | prefix defaults to "", max_length to 50 and unique to true |
| Models.CustomIdField.PreSave | src/api/models.py:19-35 | on insert without an id, the generated id is stored and returned; otherwise the id is kept and returned |
| Models.InsertNewest | src/api/models.py:68 | inserting a task adds exactly that row |
| Models.InsertNewestKeepsOrder | src/api/models.py:68 | inserting keeps the tasks newest first |
| Models.Store.First | src/api/views.py:26 | the first user is the one with the lowest primary key, none without users |
| Models.Store.CreateUser | src/api/views.py:48-49 | the demo user is added after every other user |
| Models.Store.InsertTask | src/api/models.py:68 | saving a task inserts it newest first and keeps the store valid |
| Serializers.Cleaned | src/api/serializers.py:26-28 | validating a field keeps its key; title and description are character fields, whose text is stripped |
| Serializers.StripAll | src/api/serializers.py:21-23 | every entry of `category_ids`, a list of character fields, is stripped and none is lost |
| Serializers.Validated | src/api/serializers.py:21-28 | `category_ids` stays absent when absent, and otherwise keeps its length with each id stripped |
| Serializers.WritableItemsSpec | src/api/serializers.py:28 | the validated items are exactly the request's non-read-only items, each cleaned |
| Serializers.ReadOnlyFieldsDropped | src/api/serializers.py:21-28 | id and user never arrive through validated_data; every other field does, a title stripped of surrounding whitespace; the id sent has no effect |
| Common.StripIdempotent | src/api/serializers.py:26-28 | a validated title is already stripped |
| Serializers.AssignAllLastWins | src/api/serializers.py:48-51 | after the setattr loop each key holds its last assigned value, and timestamps and categories are untouched |
| Serializers.UnassignedUnchanged | src/api/serializers.py:48-51 | a key that no item names keeps its value |
| Serializers.MatchingCategories | src/api/serializers.py:39-41 | the filter keeps exactly the existing categories whose id is listed |
| Serializers.CategoryIds | src/api/serializers.py:41 | the related ids become exactly the ids of the filtered categories |
| Serializers.MatchingIds | src/api/serializers.py:39-41 | a requested id is related exactly when it names an existing category; unknown ids are dropped |
| Serializers.Create | src/api/serializers.py:30-43 | create inserts the task under a generated id, or fails without an owner or on an id clash, leaving users and categories alone |
| Serializers.CreatedFields | src/api/serializers.py:30-43 | a new task's timestamps are both now, and it has no categories when `category_ids` is missing or empty |
| Serializers.CreatedKeepsSentFields | src/api/serializers.py:37 | every field but the owner ends with the last value the data sends for it, and keeps the model default when the data does not send it |
| Serializers.CreatedFieldsSpec | src/api/serializers.py:30-43 | a new task is not completed unless set, a user argument wins, without one the owner is the last user item of the data, and categories come only from a non-empty id list, keeping only known ids |
| Serializers.Update | src/api/serializers.py:45-58 | update keeps the id and performs the setattr loop, the save and the category rule |
| Serializers.UpdatedFields | src/api/serializers.py:45-58 | update keeps the creation time, refreshes `updated_at`, and keeps the categories when `category_ids` is absent |
| Serializers.UpdatedFieldsSpec | src/api/serializers.py:45-58 | each key ends with its last assigned value and unmentioned keys keep theirs; categories change only when `category_ids` is present, and `[]` clears them |
| Views.TasksOf | src/api/views.py:23 | the filter keeps exactly the owner's tasks |
| Views.Queryset | src/api/views.py:20-29 | a visible task is a stored task of the scope owner; no owner, no tasks (same rule at 58-67 and 84-93) |
| Views.QuerysetMembership | src/api/views.py:20-29 | an authenticated request sees exactly its own tasks; an anonymous one the first user's, or nothing without users (same rule at 58-67 and 84-93) |
| Views.QuerysetNewestFirst | src/api/views.py:20-29 | every visible list is newest first |
| Views.Detail | src/api/views.py:53-67 | a lookup by id finds a visible task with that id, or none exists |
| Views.TelegramUserTasks | src/api/views.py:96-108 | without users the list is empty; otherwise it is exactly the first user's tasks |
| Views.TelegramIdIgnored | src/api/views.py:96-108 | every Telegram id gets the same list, the one an anonymous request gets |
| Views.PerformCreate | src/api/views.py:42-50 | the owner is the requester, else the first user, else a new "demo" user; the task is saved for that owner |
| Views.CreateOwner | src/api/views.py:42-50 | the owner is the authenticated requester, else an existing user; with users it is the owner whose tasks the request sees |
| Views.CreatedFieldsOwner | src/api/views.py:44-50 | saving with a user argument makes it the task's owner |
| Views.CreateView | src/api/views.py:31-50 | invalid data answers 400 and saves nothing; valid data answers 201 with the saved row, whose fields are those `create` builds from the request's validated data for its owner and whose id is the generated "TASK_" id, or 500 exactly when that id is taken; categories never change and users gain the "demo" user only for an anonymous request without users |
| Views.OwnerAlwaysAssigned | src/api/views.py:42-50 | an anonymous task goes to the user with the lowest key, or to the new user without users |
| Views.AnonymousCreateVisible | src/api/views.py:42-50 | a task created anonymously is visible to anonymous requests afterwards |

## Left out

- Network, JSON decoding, printing and logging. A backend answer is a status with an already decoded body, or a failure that stands for a connection error, a timeout or an undecodable body.
- The dialog library and the Telegram transport: routing tables, window rendering beyond the text, polling, and the recovery from a lost context at src/bot/main.py:30-33. The per-user context is taken as given; the stack depth limit of the dialog library is not modelled.
- Messages without text (`message.text` is `None`). Text that is the `/start` command is the `Start` event, because that handler is registered before the dialog.
- Render.Block: a category is taken to be its name. The `KeyError` of a category object without "name" (src/bot/bot.py:150) is not modelled.
- LegacyBot.LegacyWindowText: the task list getter's keyword arguments are taken not to contain `dialog_data`, so the window always shows the default text.
- LegacyBot.TextNeverAdvances: the input windows' lambdas are taken to raise, because they get three arguments where they declare two.
- LegacyBot: the model assumes a dialog manager is set up and passed to every handler. bot.py's `main()` (src/bot/bot.py:177-189) never calls `setup_dialogs`, unlike src/bot/main.py:48, so as written every handler there would be called without its `dialog_manager` argument and raise.
- IdGenerator.TimePart: the float arithmetic of `time.time()` and the rounding of `int(float(timestamp) * 1000000)` are not modelled. The timestamp is a whole number of microseconds, and SHA-256 is an input digest.
- Models.CustomIdField.PreSave: the branch for a field without a `prefix` attribute is not modelled. The constructor always sets it, so the branch cannot run.
- Category creation and editing (CategoryListCreateView and CategoryDetailView) are generic views with no logic of their own. Categories are a read-only table kept by name.
- The ordering of tasks with equal `created_at` is left to the database. The model places a new task before older tasks with the same time.
- Serializers.Update: the row write of `instance.save()` into the store and the task deletion of the detail view are not modelled. Update changes the in-memory instance only.
- DRF validation and its error body. Validity is a boolean input; the title length limit and the blank-title rule are part of it. The whitespace stripping of character fields is modelled.
- Models.NewTaskFields: `created_at` and `updated_at` are given the same `now`. Django reads the clock once for each field, so the two can differ by a few microseconds.
- Transactions: a demo user created before a failed insert stays.
- src/api/tasks.py, src/core/celery_beat_config.py, src/core/wsgi.py, src/bot/config.py, src/api/urls.py and src/api/admin.py are not part of this model. They are scheduling and configuration.
