/** The Django models: the custom primary-key field that assigns generated
    ids on insert, the Task and Category records, and the database they
    live in, kept in each model's declared ordering. Timestamps are whole
    numbers (the clock is an input); the id generator's clock reading and
    digest are inputs too. */
module Models {
  import opened Common
  import IdGenerator

  const DefaultMaxLength: nat := 50
  const TaskFieldPrefix := "TASK"
  const CategoryFieldPrefix := "CAT"

  // ---------------------------------------------------------------------
  // Records

  datatype User = User(id: int, username: string)

  /** The attributes of a Task besides its id. `user` is `None` until
      assigned; the database refuses a row without it. `categories` is the
      set of related category ids. */
  datatype TaskFields = TaskFields(
    title: string,
    description: Option<string>,
    completed: bool,
    dueDate: Option<int>,
    createdAt: int,
    updatedAt: int,
    user: Option<int>,
    categories: set<string>)

  /** A new Task's attributes at time `now`: the declared defaults (an empty
      title, no description, not completed, no due date, no categories) and
      both timestamps set by `auto_now_add` / `auto_now`. */
  function NewTaskFields(now: int): (f: TaskFields)
    ensures !f.completed && f.description.None? && f.dueDate.None? && f.categories == {}
    ensures f.createdAt == now && f.updatedAt == now && f.user.None?
  {
    TaskFields("", None, false, None, now, now, None, {})
  }

  datatype TaskRow = TaskRow(id: string, fields: TaskFields)

  datatype CategoryRow = CategoryRow(id: string, name: string, description: Option<string>)

  /** A model object in memory: its primary key and its other attributes. */
  class ModelInstance<F> {
    var id: string
    var fields: F

    constructor (id: string, fields: F)
      ensures this.id == id && this.fields == fields
    {
      this.id := id;
      this.fields := fields;
    }
  }

  // ---------------------------------------------------------------------
  // CustomIDField

  /** The id `pre_save` generates for a field with the given prefix:
      "TASK" uses the task generator, "CAT" the category generator, and
      any other prefix falls back to the task generator. */
  function GeneratedId(fieldPrefix: string, micros: nat, digest: string): (id: string)
    ensures |id| <= |IdGenerator.TaskPrefix| + IdGenerator.TimeDigits + IdGenerator.HashChars
  {
    if fieldPrefix == TaskFieldPrefix then IdGenerator.GenerateTaskId(micros, digest)
    else if fieldPrefix == CategoryFieldPrefix then IdGenerator.GenerateCategoryId(micros, digest)
    else IdGenerator.GenerateTaskId(micros, digest)
  }

  class CustomIdField {
    const prefix: string
    const maxLength: nat
    const unique: bool

    /** `prefix` defaults to "", `max_length` to 50 and `unique` to true
        unless given. */
    constructor (prefix: Option<string>, maxLength: Option<nat>, unique: Option<bool>)
      ensures this.prefix == prefix.GetOr("")
      ensures this.maxLength == maxLength.GetOr(DefaultMaxLength) && this.unique == unique.GetOr(true)
    {
      this.prefix := prefix.GetOr("");
      this.maxLength := maxLength.GetOr(DefaultMaxLength);
      this.unique := unique.GetOr(true);
    }

    /** On insert of an object without an id, generate one, store it in
        the object and return it; otherwise return the id as it is. */
    method PreSave<F>(instance: ModelInstance<F>, add: bool, micros: nat, digest: string) returns (value: string)
      modifies instance
      ensures add && old(instance.id) == "" ==> value == GeneratedId(prefix, micros, digest)
      ensures !(add && old(instance.id) == "") ==> value == old(instance.id)
      ensures instance.id == value && instance.fields == old(instance.fields)
    {
      if add && instance.id == "" {
        if prefix == TaskFieldPrefix {
          value := IdGenerator.GenerateTaskId(micros, digest);
        } else if prefix == CategoryFieldPrefix {
          value := IdGenerator.GenerateCategoryId(micros, digest);
        } else {
          value := IdGenerator.GenerateTaskId(micros, digest);
        }
        instance.id := value;
        return;
      }
      value := instance.id;
    }
  }

  /** Task ids start with "TASK_", category ids with "CAT_", any other prefix
      gives a task id, and every generated id fits the default `max_length`. */
  lemma GeneratedIdPrefixes(fieldPrefix: string, micros: nat, digest: string)
    ensures fieldPrefix == TaskFieldPrefix ==> StartsWith(GeneratedId(fieldPrefix, micros, digest), IdGenerator.TaskPrefix)
    ensures fieldPrefix == CategoryFieldPrefix ==> StartsWith(GeneratedId(fieldPrefix, micros, digest), IdGenerator.CategoryPrefix)
    ensures fieldPrefix != CategoryFieldPrefix ==> StartsWith(GeneratedId(fieldPrefix, micros, digest), IdGenerator.TaskPrefix)
    ensures |GeneratedId(fieldPrefix, micros, digest)| <= DefaultMaxLength
  {
  }

  // ---------------------------------------------------------------------
  // Orderings

  /** `ordering = ["-created_at"]`. */
  predicate NewestFirst(tasks: seq<TaskRow>) {
    forall i, j :: 0 <= i < j < |tasks| ==> tasks[i].fields.createdAt >= tasks[j].fields.createdAt
  }

  /** `ordering = ["name"]`, names being unique. */
  predicate ByName(categories: seq<CategoryRow>) {
    forall i, j :: 0 <= i < j < |categories| ==> StringLess(categories[i].name, categories[j].name)
  }

  /** Strict lexicographic order on strings by code point. */
  predicate StringLess(a: string, b: string) {
    if b == [] then false
    else if a == [] then true
    else a[0] < b[0] || (a[0] == b[0] && StringLess(a[1..], b[1..]))
  }

  /** Users by ascending primary key, so the first is `User.objects.first()`. */
  predicate Ascending(users: seq<User>) {
    forall i, j :: 0 <= i < j < |users| ==> users[i].id < users[j].id
  }

  /** Where a row with the given creation time goes in a newest-first list:
      before the first row that is not newer. */
  function InsertNewest(tasks: seq<TaskRow>, row: TaskRow): (r: seq<TaskRow>)
    ensures |r| == |tasks| + 1
    ensures multiset(r) == multiset(tasks) + multiset{row}
  {
    if tasks == [] || tasks[0].fields.createdAt <= row.fields.createdAt then [row] + tasks
    else
      assert tasks == [tasks[0]] + tasks[1..];
      [tasks[0]] + InsertNewest(tasks[1..], row)
  }

  lemma {:induction false} InsertNewestKeepsOrder(tasks: seq<TaskRow>, row: TaskRow)
    requires NewestFirst(tasks)
    ensures NewestFirst(InsertNewest(tasks, row))
  {
    if tasks == [] || tasks[0].fields.createdAt <= row.fields.createdAt {
    } else {
      var rest := InsertNewest(tasks[1..], row);
      InsertNewestKeepsOrder(tasks[1..], row);
      forall k | 0 <= k < |rest|
        ensures tasks[0].fields.createdAt >= rest[k].fields.createdAt
      {
        assert rest[k] in multiset(rest);
        assert rest[k] == row || rest[k] in multiset(tasks[1..]);
      }
    }
  }

  // ---------------------------------------------------------------------
  // The database

  class Store {
    var users: seq<User>
    var tasks: seq<TaskRow>
    var categories: seq<CategoryRow>

    /** Each table in its ordering, and every task with an owner. */
    predicate Valid()
      reads this
    {
      Ascending(users) && NewestFirst(tasks) && ByName(categories) &&
      forall i :: 0 <= i < |tasks| ==> tasks[i].fields.user.Some?
    }

    constructor ()
      ensures Valid() && users == [] && tasks == [] && categories == []
    {
      users, tasks, categories := [], [], [];
    }

    /** `User.objects.first()`: the user with the lowest primary key. */
    function First(): (u: Option<User>)
      reads this
      requires Valid()
      ensures u.None? <==> users == []
      ensures u.Some? ==> u.value in users && forall v :: v in users ==> u.value.id <= v.id
    {
      if users == [] then None else Some(users[0])
    }

    /** `User.objects.create_user`: a new user, whose primary key the
        database allocates above every existing one. */
    method CreateUser(id: int, username: string)
      requires Valid() && forall u :: u in users ==> u.id < id
      modifies this
      ensures Valid()
      ensures users == old(users) + [User(id, username)]
      ensures tasks == old(tasks) && categories == old(categories)
    {
      users := users + [User(id, username)];
    }

    /** Saving a new Task row with an owner. */
    method InsertTask(row: TaskRow)
      requires Valid() && row.fields.user.Some?
      modifies this
      ensures Valid()
      ensures tasks == InsertNewest(old(tasks), row)
      ensures users == old(users) && categories == old(categories)
    {
      InsertNewestKeepsOrder(tasks, row);
      var r := InsertNewest(tasks, row);
      forall i | 0 <= i < |r|
        ensures r[i].fields.user.Some?
      {
        assert r[i] in multiset(r);
      }
      tasks := r;
    }

    predicate HasTaskId(id: string)
      reads this
    {
      exists i :: 0 <= i < |tasks| && tasks[i].id == id
    }
  }
}
