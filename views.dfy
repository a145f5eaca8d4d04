/** The REST views: which tasks a request may see, how a task is looked up
    by id, how a task is created and who owns it, and the bot's per-Telegram-id
    endpoint. Authentication and payload validation are inputs. */
module Views {
  import opened Common
  import opened Models
  import opened Serializers
  import IdGenerator

  datatype Requester = Anonymous | Authenticated(userId: int)

  /** Whose tasks a request sees: the requester's own, or for an anonymous
      request the first user's; nobody's when there are no users. */
  function ScopeOwner(users: seq<User>, requester: Requester): Option<int> {
    match requester
    case Authenticated(u) => Some(u)
    case Anonymous => if users == [] then None else Some(users[0].id)
  }

  /** `Task.objects.filter(user=owner)`, in the stored order. */
  function TasksOf(tasks: seq<TaskRow>, owner: int): (r: seq<TaskRow>)
    ensures |r| <= |tasks|
    ensures forall t :: t in r <==> t in tasks && t.fields.user == Some(owner)
  {
    if tasks == [] then []
    else if tasks[0].fields.user == Some(owner) then [tasks[0]] + TasksOf(tasks[1..], owner)
    else TasksOf(tasks[1..], owner)
  }

  /** `get_queryset` of the list, detail and user-task views, which share one
      rule; `Task.objects.none()` when there is nobody to scope to. */
  function Queryset(users: seq<User>, tasks: seq<TaskRow>, requester: Requester): (r: seq<TaskRow>)
    ensures |r| <= |tasks|
    ensures forall t :: t in r ==> t in tasks && t.fields.user == ScopeOwner(users, requester)
    ensures ScopeOwner(users, requester).None? ==> r == []
  {
    match ScopeOwner(users, requester)
    case None => []
    case Some(owner) => TasksOf(tasks, owner)
  }

  /** A task is visible exactly when it belongs to the requester, or, for an
      anonymous request, to the first user; with no users nothing is. */
  lemma QuerysetMembership(users: seq<User>, tasks: seq<TaskRow>, requester: Requester, t: TaskRow)
    ensures requester.Authenticated? ==>
      (t in Queryset(users, tasks, requester) <==> t in tasks && t.fields.user == Some(requester.userId))
    ensures requester.Anonymous? && users != [] ==>
      (t in Queryset(users, tasks, requester) <==> t in tasks && t.fields.user == Some(users[0].id))
    ensures requester.Anonymous? && users == [] ==> Queryset(users, tasks, requester) == []
  {
  }

  lemma {:induction false} TasksOfKeepsOrder(tasks: seq<TaskRow>, owner: int)
    requires NewestFirst(tasks)
    ensures NewestFirst(TasksOf(tasks, owner))
  {
    if tasks != [] {
      var rest := TasksOf(tasks[1..], owner);
      TasksOfKeepsOrder(tasks[1..], owner);
      if tasks[0].fields.user == Some(owner) {
        forall k | 0 <= k < |rest|
          ensures tasks[0].fields.createdAt >= rest[k].fields.createdAt
        {
          assert rest[k] in rest;
          var j :| 0 <= j < |tasks[1..]| && tasks[1..][j] == rest[k];
          assert tasks[j + 1] == rest[k];
        }
      }
    }
  }

  /** Every list a view returns is newest first. */
  lemma QuerysetNewestFirst(users: seq<User>, tasks: seq<TaskRow>, requester: Requester)
    requires NewestFirst(tasks)
    ensures NewestFirst(Queryset(users, tasks, requester))
  {
    if ScopeOwner(users, requester).Some? {
      TasksOfKeepsOrder(tasks, ScopeOwner(users, requester).value);
    }
  }

  /** `TaskDetailView` lookup by `id` within the queryset; `None` is 404. */
  function Detail(users: seq<User>, tasks: seq<TaskRow>, requester: Requester, id: string): (r: Option<TaskRow>)
    ensures r.Some? ==> r.value in Queryset(users, tasks, requester) && r.value.id == id
    ensures r.None? ==> forall t :: t in Queryset(users, tasks, requester) ==> t.id != id
  {
    FindById(Queryset(users, tasks, requester), id)
  }

  function FindById(tasks: seq<TaskRow>, id: string): (r: Option<TaskRow>)
    ensures r.Some? ==> r.value in tasks && r.value.id == id
    ensures r.None? ==> forall t :: t in tasks ==> t.id != id
  {
    if tasks == [] then None
    else if tasks[0].id == id then Some(tasks[0])
    else FindById(tasks[1..], id)
  }

  /** `get_user_by_telegram_id`: the first user's tasks, or `[]`. */
  function TelegramUserTasks(users: seq<User>, tasks: seq<TaskRow>, telegramId: int): (r: seq<TaskRow>)
    ensures users == [] ==> r == []
    ensures users != [] ==> forall t :: t in r <==> t in tasks && t.fields.user == Some(users[0].id)
  {
    if users == [] then [] else TasksOf(tasks, users[0].id)
  }

  /** The Telegram id is ignored: every id gets what an anonymous request to
      the task list gets. */
  lemma TelegramIdIgnored(users: seq<User>, tasks: seq<TaskRow>, id1: int, id2: int)
    ensures TelegramUserTasks(users, tasks, id1) == TelegramUserTasks(users, tasks, id2)
    ensures TelegramUserTasks(users, tasks, id1) == Queryset(users, tasks, Anonymous)
  {
  }

  // ---------------------------------------------------------------------
  // Creating a task

  const HttpCreated := 201
  const HttpBadRequest := 400
  const HttpServerError := 500

  /** `perform_create`: the owner is the requester, else the first user,
      else a new user "demo" with the primary key the database allocates. */
  method PerformCreate(store: Store, requester: Requester, data: ValidatedData,
                       now: int, micros: nat, digest: string, newUserId: int) returns (result: CreateResult)
    requires store.Valid()
    modifies store
    ensures store.Valid()
    ensures store.categories == old(store.categories)
    ensures var owner := CreateOwner(old(store.users), requester, newUserId);
      && store.users == (if requester.Anonymous? && old(store.users) == [] then [User(newUserId, "demo")] else old(store.users))
      && var f := CreatedFields(WithSaveUser(data, owner), None, old(store.categories), now);
      var id := GeneratedId(TaskFieldPrefix, micros, digest);
      if old(store.HasTaskId(id)) then result == IntegrityError && store.tasks == old(store.tasks)
      else result == Created(TaskRow(id, f)) && store.tasks == InsertNewest(old(store.tasks), result.row)
  {
    var owner: int;
    if requester.Authenticated? {
      owner := requester.userId;
    } else {
      var first := store.First();
      if first.None? {
        store.CreateUser(newUserId, "demo");
        first := Some(User(newUserId, "demo"));
      }
      owner := first.value.id;
    }
    CreatedFieldsOwner(data, owner, store.categories, now);
    result := Create(store, WithSaveUser(data, owner), None, now, micros, digest);
  }

  /** Who owns a task created by this request. */
  function CreateOwner(users: seq<User>, requester: Requester, newUserId: int): (owner: int)
    ensures requester.Authenticated? ==> owner == requester.userId
    ensures requester.Anonymous? && users != [] ==> exists u :: u in users && u.id == owner
    ensures users != [] ==> owner == ScopeOwner(users, requester).value
  {
    match requester
    case Authenticated(u) => u
    case Anonymous => if users == [] then newUserId else users[0].id
  }

  lemma CreatedFieldsOwner(data: ValidatedData, owner: int, categories: seq<CategoryRow>, now: int)
    ensures CreatedFields(WithSaveUser(data, owner), None, categories, now).user == Some(owner)
  {
    var items := WithSaveUser(data, owner).items;
    AssignAllLastWins(NewTaskFields(now), items, UserKey);
  }

  /** `TaskListCreateView.create`: 400 and nothing saved for an invalid
      request; otherwise the task is saved for its owner and the answer is
      201. A save the database refuses raises, which the server answers
      with 500. */
  method CreateView(store: Store, requester: Requester, request: RequestData, valid: bool,
                    now: int, micros: nat, digest: string, newUserId: int) returns (status: int, created: Option<TaskRow>)
    requires store.Valid()
    modifies store
    ensures store.Valid()
    ensures !valid ==>
      && status == HttpBadRequest && created.None?
      && store.users == old(store.users) && store.tasks == old(store.tasks) && store.categories == old(store.categories)
    ensures valid ==>
      && (status == HttpCreated <==> created.Some?)
      && store.categories == old(store.categories)
      && store.users == (if requester.Anonymous? && old(store.users) == [] then [User(newUserId, "demo")] else old(store.users))
      && (created.None? <==> old(store.HasTaskId(GeneratedId(TaskFieldPrefix, micros, digest))))
      && (created.None? ==> status == HttpServerError && store.tasks == old(store.tasks))
      && (created.Some? ==>
            && created.value == TaskRow(GeneratedId(TaskFieldPrefix, micros, digest),
                 CreatedFields(WithSaveUser(Validated(request), CreateOwner(old(store.users), requester, newUserId)),
                               None, old(store.categories), now))
            && created.value.fields.user == Some(CreateOwner(old(store.users), requester, newUserId))
            && StartsWith(created.value.id, IdGenerator.TaskPrefix)
            && store.tasks == InsertNewest(old(store.tasks), created.value))
  {
    if !valid {
      return HttpBadRequest, None;
    }
    var data := Validated(request);
    GeneratedIdPrefixes(TaskFieldPrefix, micros, digest);
    CreatedFieldsOwner(data, CreateOwner(store.users, requester, newUserId), store.categories, now);
    var result := PerformCreate(store, requester, data, now, micros, digest, newUserId);
    if result.IntegrityError? {
      return HttpServerError, None;
    }
    return HttpCreated, Some(result.row);
  }

  /** Every created task has an owner, and an anonymous request's task goes
      to the first user, or to a new user when there is none. */
  lemma OwnerAlwaysAssigned(users: seq<User>, requester: Requester, newUserId: int)
    requires Ascending(users)
    ensures requester.Authenticated? ==> CreateOwner(users, requester, newUserId) == requester.userId
    ensures requester.Anonymous? && users != [] ==>
      CreateOwner(users, requester, newUserId) in (set u | u in users :: u.id) &&
      forall u :: u in users ==> CreateOwner(users, requester, newUserId) <= u.id
    ensures requester.Anonymous? && users == [] ==> CreateOwner(users, requester, newUserId) == newUserId
  {
    if requester.Anonymous? && users != [] {
      assert users[0] in users;
      forall u | u in users
        ensures users[0].id <= u.id
      {
        var j :| 0 <= j < |users| && users[j] == u;
        if j > 0 {
          assert users[0].id < users[j].id;
        }
      }
    }
  }

  /** A task created anonymously is then visible to anonymous requests. */
  lemma AnonymousCreateVisible(users: seq<User>, tasks: seq<TaskRow>, row: TaskRow, newUserId: int)
    requires row.fields.user == Some(CreateOwner(users, Anonymous, newUserId))
    ensures var after := if users == [] then [User(newUserId, "demo")] else users;
      row in Queryset(after, InsertNewest(tasks, row), Anonymous)
  {
    assert row in multiset(InsertNewest(tasks, row));
  }
}
