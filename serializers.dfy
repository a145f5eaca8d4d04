/** TaskSerializer's write path: what survives validation, how `create`
    builds a new Task and how `update` overwrites an existing one. The
    validity of a request is an input; `validated_data` is the ordered list
    of its field assignments plus the write-only `category_ids`. */
module Serializers {
  import opened Common
  import opened Models

  /** One writable key of `validated_data` and its value. */
  datatype Assignment =
    | SetTitle(title: string)
    | SetDescription(description: Option<string>)
    | SetCompleted(completed: bool)
    | SetDueDate(dueDate: Option<int>)
    | SetUser(user: int)

  datatype Key = TitleKey | DescriptionKey | CompletedKey | DueDateKey | UserKey

  function KeyOf(a: Assignment): Key {
    match a
    case SetTitle(_) => TitleKey
    case SetDescription(_) => DescriptionKey
    case SetCompleted(_) => CompletedKey
    case SetDueDate(_) => DueDateKey
    case SetUser(_) => UserKey
  }

  /** The fields a request supplies: model fields, the write-only
      `category_ids`, and the read-only `id`. A "user" in the request is
      a `SetUser` item. */
  datatype RequestData = RequestData(items: seq<Assignment>, categoryIds: Option<seq<string>>, id: Option<string>)

  datatype ValidatedData = ValidatedData(items: seq<Assignment>, categoryIds: Option<seq<string>>)

  /** The value a writable field is validated to. The title and the
      description are character fields, which strip surrounding whitespace
      by default; the other fields are kept as sent. */
  function Cleaned(a: Assignment): (r: Assignment)
    ensures KeyOf(r) == KeyOf(a)
  {
    match a
    case SetTitle(t) => SetTitle(Strip(t))
    case SetDescription(Some(d)) => SetDescription(Some(Strip(d)))
    case _ => a
  }

  /** Each entry of `category_ids`, a list of character fields, stripped. */
  function StripAll(ids: seq<string>): (r: seq<string>)
    ensures |r| == |ids| && forall i :: 0 <= i < |ids| ==> r[i] == Strip(ids[i])
  {
    if ids == [] then [] else [Strip(ids[0])] + StripAll(ids[1..])
  }

  /** Validation drops the read-only `id` and `user`, and strips the text
      of the title, the description and every category id. */
  function Validated(request: RequestData): (data: ValidatedData)
    ensures request.categoryIds.None? ==> data.categoryIds.None?
    ensures request.categoryIds.Some? ==>
      && data.categoryIds.Some? && |data.categoryIds.value| == |request.categoryIds.value|
      && forall i :: 0 <= i < |request.categoryIds.value| ==> data.categoryIds.value[i] == Strip(request.categoryIds.value[i])
  {
    ValidatedData(WritableItems(request.items),
                  if request.categoryIds.None? then None else Some(StripAll(request.categoryIds.value)))
  }

  function WritableItems(items: seq<Assignment>): seq<Assignment> {
    if items == [] then []
    else if items[0].SetUser? then WritableItems(items[1..])
    else [Cleaned(items[0])] + WritableItems(items[1..])
  }

  /** The validated items are the request's items that are not read-only,
      in their order, each cleaned. */
  lemma {:induction false} WritableItemsSpec(items: seq<Assignment>)
    ensures var r := WritableItems(items);
      && |r| <= |items|
      && (forall a :: a in r ==> !a.SetUser?)
      && (forall a :: a in items && !a.SetUser? ==> Cleaned(a) in r)
      && (forall a :: a in r ==> exists b :: b in items && !b.SetUser? && a == Cleaned(b))
  {
    if items != [] {
      WritableItemsSpec(items[1..]);
      assert items == [items[0]] + items[1..];
      var r := WritableItems(items);
      forall a | a in r
        ensures exists b :: b in items && !b.SetUser? && a == Cleaned(b)
      {
        if !items[0].SetUser? && a == Cleaned(items[0]) {
          assert items[0] in items;
        } else {
          var b :| b in items[1..] && !b.SetUser? && a == Cleaned(b);
          assert b in items;
        }
      }
    }
  }

  /** Neither `id` nor `user` ever arrives through `validated_data`; every
      other field of the request does, with its text stripped. */
  lemma ReadOnlyFieldsDropped(request: RequestData)
    ensures forall a :: a in Validated(request).items ==> !a.SetUser?
    ensures forall a :: a in request.items && !a.SetUser? ==> Cleaned(a) in Validated(request).items
    ensures forall t :: SetTitle(t) in request.items ==> SetTitle(Strip(t)) in Validated(request).items
    ensures forall a :: a in Validated(request).items && a.SetTitle? ==>
      a.title == Strip(a.title) && exists t :: SetTitle(t) in request.items && a.title == Strip(t)
    ensures forall id :: Validated(request) == Validated(request.(id := id))
  {
    WritableItemsSpec(request.items);
    forall a | a in Validated(request).items && a.SetTitle?
      ensures a.title == Strip(a.title) && exists t :: SetTitle(t) in request.items && a.title == Strip(t)
    {
      var b :| b in request.items && !b.SetUser? && a == Cleaned(b);
      assert b.SetTitle?;
      StripIdempotent(b.title);
    }
  }

  /** `serializer.save(**kwargs)`: the keyword arguments are merged into
      `validated_data`, overriding keys it already has. */
  function WithSaveUser(data: ValidatedData, user: int): ValidatedData {
    data.(items := data.items + [SetUser(user)])
  }

  /** `setattr(instance, attr, value)` for one key. */
  function Assign(f: TaskFields, a: Assignment): TaskFields {
    match a
    case SetTitle(t) => f.(title := t)
    case SetDescription(d) => f.(description := d)
    case SetCompleted(c) => f.(completed := c)
    case SetDueDate(d) => f.(dueDate := d)
    case SetUser(u) => f.(user := Some(u))
  }

  /** The assignments applied in order. */
  function AssignAll(f: TaskFields, items: seq<Assignment>): TaskFields {
    if items == [] then f else Assign(AssignAll(f, items[..|items| - 1]), items[|items| - 1])
  }

  /** The value of `key` after the assignments: that of the last item with
      this key, or the old one when no item has it. */
  function LastValue(f: TaskFields, items: seq<Assignment>, key: Key): TaskFields {
    if items == [] then f
    else if KeyOf(items[|items| - 1]) == key then Assign(f, items[|items| - 1])
    else LastValue(f, items[..|items| - 1], key)
  }

  /** The two records have the same value for `key`. */
  predicate Agree(f: TaskFields, g: TaskFields, key: Key) {
    match key
    case TitleKey => f.title == g.title
    case DescriptionKey => f.description == g.description
    case CompletedKey => f.completed == g.completed
    case DueDateKey => f.dueDate == g.dueDate
    case UserKey => f.user == g.user
  }

  lemma AssignOther(f: TaskFields, g: TaskFields, a: Assignment, key: Key)
    ensures KeyOf(a) == key ==> Agree(Assign(f, a), Assign(g, a), key)
    ensures KeyOf(a) != key ==> Agree(Assign(f, a), f, key)
  {
  }

  /** Every key ends with the value of its last assignment, and keys nobody
      assigns keep their value; timestamps and categories are never assigned. */
  lemma {:induction false} AssignAllLastWins(f: TaskFields, items: seq<Assignment>, key: Key)
    ensures Agree(AssignAll(f, items), LastValue(f, items, key), key)
    ensures var r := AssignAll(f, items);
      r.createdAt == f.createdAt && r.updatedAt == f.updatedAt && r.categories == f.categories
  {
    if items != [] {
      var init := items[..|items| - 1];
      var last := items[|items| - 1];
      AssignAllLastWins(f, init, key);
      AssignOther(AssignAll(f, init), f, last, key);
      AssignOther(LastValue(f, init, key), f, last, key);
    }
  }

  /** Without an item for `key`, the attribute keeps its value. */
  lemma {:induction false} UnassignedUnchanged(f: TaskFields, items: seq<Assignment>, key: Key)
    requires forall i :: 0 <= i < |items| ==> KeyOf(items[i]) != key
    ensures Agree(AssignAll(f, items), f, key)
  {
    if items != [] {
      UnassignedUnchanged(f, items[..|items| - 1], key);
      AssignOther(AssignAll(f, items[..|items| - 1]), f, items[|items| - 1], key);
    }
  }

  /** `Category.objects.filter(id__in=ids)`: the existing categories whose id
      is listed, in their stored order. */
  function MatchingCategories(categories: seq<CategoryRow>, ids: seq<string>): (r: seq<CategoryRow>)
    ensures forall c :: c in r <==> c in categories && c.id in ids
  {
    if categories == [] then []
    else if categories[0].id in ids then [categories[0]] + MatchingCategories(categories[1..], ids)
    else MatchingCategories(categories[1..], ids)
  }

  /** `.set(queryset)` on the relation: the related ids become exactly those of the queryset. */
  function CategoryIds(categories: seq<CategoryRow>): (ids: set<string>)
    ensures forall x :: x in ids <==> exists c :: c in categories && c.id == x
  {
    if categories == [] then {} else {categories[0].id} + CategoryIds(categories[1..])
  }

  /** The category ids a list of requested ids resolves to: the requested
      ids that name an existing category; unknown ids are dropped. */
  lemma MatchingIds(categories: seq<CategoryRow>, ids: seq<string>, x: string)
    ensures x in CategoryIds(MatchingCategories(categories, ids)) <==>
      x in ids && exists c :: c in categories && c.id == x
  {
  }

  // ---------------------------------------------------------------------
  // create

  datatype CreateResult = Created(row: TaskRow) | IntegrityError

  /** The attributes `create` gives the new task, before the id: the
      defaults, the assignments in order, then the truthy `user` keyword
      argument; the categories are set only from a non-empty id list. */
  function CreatedFields(data: ValidatedData, userKwarg: Option<int>, categories: seq<CategoryRow>, now: int): (r: TaskFields)
    ensures r.createdAt == now && r.updatedAt == now
    ensures data.categoryIds.GetOr([]) == [] ==> r.categories == {}
  {
    var ids := data.categoryIds.GetOr([]);
    var items := if userKwarg.Some? then data.items + [SetUser(userKwarg.value)] else data.items;
    AssignAllLastWins(NewTaskFields(now), items, TitleKey);
    var f := AssignAll(NewTaskFields(now), items);
    if ids != [] then f.(categories := CategoryIds(MatchingCategories(categories, ids))) else f
  }

  /** `TaskSerializer.create`: pops `category_ids`, applies the `user`
      keyword argument, inserts the task (its id assigned by the id field
      on insert) and sets its categories. The database refuses a task
      without an owner or with an id already taken. */
  method Create(store: Store, data: ValidatedData, userKwarg: Option<int>, now: int, micros: nat, digest: string)
    returns (result: CreateResult)
    requires store.Valid()
    modifies store
    ensures store.Valid()
    ensures store.users == old(store.users) && store.categories == old(store.categories)
    ensures var id := GeneratedId(TaskFieldPrefix, micros, digest);
      var f := CreatedFields(data, userKwarg, old(store.categories), now);
      if f.user.None? || old(store.HasTaskId(id)) then
        result == IntegrityError && store.tasks == old(store.tasks)
      else
        result == Created(TaskRow(id, f)) && store.tasks == InsertNewest(old(store.tasks), result.row)
  {
    var categoryIds := data.categoryIds.GetOr([]);
    var items := data.items;
    if userKwarg.Some? {
      items := items + [SetUser(userKwarg.value)];
    }
    var instance := new ModelInstance("", AssignAll(NewTaskFields(now), items));
    var idField := new CustomIdField(Some(TaskFieldPrefix), None, None);
    var id := idField.PreSave(instance, true, micros, digest);
    if instance.fields.user.None? || store.HasTaskId(id) {
      return IntegrityError;
    }
    if categoryIds != [] {
      var matching := MatchingCategories(store.categories, categoryIds);
      instance.fields := instance.fields.(categories := CategoryIds(matching));
    }
    result := Created(TaskRow(instance.id, instance.fields));
    store.InsertTask(result.row);
  }

  /** `Task.objects.create(**validated_data)`: every field the data sends
      ends with the last value sent for it; a field it does not send keeps
      the model default. */
  lemma CreatedKeepsSentFields(data: ValidatedData, userKwarg: Option<int>, categories: seq<CategoryRow>, now: int, key: Key)
    requires key != UserKey
    ensures Agree(CreatedFields(data, userKwarg, categories, now), LastValue(NewTaskFields(now), data.items, key), key)
    ensures (forall i :: 0 <= i < |data.items| ==> KeyOf(data.items[i]) != key) ==>
      Agree(CreatedFields(data, userKwarg, categories, now), NewTaskFields(now), key)
  {
    var items := if userKwarg.Some? then data.items + [SetUser(userKwarg.value)] else data.items;
    AssignAllLastWins(NewTaskFields(now), items, key);
    if userKwarg.Some? {
      assert items[..|items| - 1] == data.items;
    }
    if forall i :: 0 <= i < |data.items| ==> KeyOf(data.items[i]) != key {
      UnassignedUnchanged(NewTaskFields(now), items, key);
    }
  }

  /** What `create` stores: `category_ids` never becomes a field, a new task
      is not completed unless the data says so, a truthy `user` argument
      wins over `validated_data`, and the categories are the existing ones
      among the listed ids, or none when the list is missing or empty. */
  lemma CreatedFieldsSpec(data: ValidatedData, userKwarg: Option<int>, categories: seq<CategoryRow>, now: int)
    ensures var f := CreatedFields(data, userKwarg, categories, now);
      var ids := data.categoryIds.GetOr([]);
      && f.createdAt == now && f.updatedAt == now
      && ((forall i :: 0 <= i < |data.items| ==> !data.items[i].SetCompleted?) ==> !f.completed)
      && (userKwarg.Some? ==> f.user == userKwarg)
      && (userKwarg.None? ==> f.user == LastValue(NewTaskFields(now), data.items, UserKey).user)
      && (ids == [] ==> f.categories == {})
      && (forall x :: x in f.categories <==> x in ids && exists c :: c in categories && c.id == x)
  {
    var items := if userKwarg.Some? then data.items + [SetUser(userKwarg.value)] else data.items;
    var g := AssignAll(NewTaskFields(now), items);
    AssignAllLastWins(NewTaskFields(now), items, UserKey);
    if forall i :: 0 <= i < |data.items| ==> !data.items[i].SetCompleted? {
      UnassignedUnchanged(NewTaskFields(now), items, CompletedKey);
    }
  }

  // ---------------------------------------------------------------------
  // update

  /** The attributes `update` leaves: the assignments in order, `updated_at`
      refreshed by the save, and the categories replaced exactly when
      `category_ids` is present, even when it is empty. */
  function UpdatedFields(f: TaskFields, data: ValidatedData, categories: seq<CategoryRow>, now: int): (r: TaskFields)
    ensures r.createdAt == f.createdAt && r.updatedAt == now
    ensures data.categoryIds.None? ==> r.categories == f.categories
  {
    AssignAllLastWins(f, data.items, TitleKey);
    var g := AssignAll(f, data.items).(updatedAt := now);
    match data.categoryIds
    case None => g
    case Some(ids) => g.(categories := CategoryIds(MatchingCategories(categories, ids)))
  }

  /** `TaskSerializer.update`, with the save that keeps the id. */
  method Update(instance: ModelInstance<TaskFields>, data: ValidatedData, categories: seq<CategoryRow>,
                now: int, micros: nat, digest: string)
    modifies instance
    ensures instance.id == old(instance.id)
    ensures instance.fields == UpdatedFields(old(instance.fields), data, categories, now)
  {
    var categoryIds := data.categoryIds;
    var i := 0;
    while i < |data.items|
      invariant 0 <= i <= |data.items|
      invariant instance.id == old(instance.id)
      invariant instance.fields == AssignAll(old(instance.fields), data.items[..i])
    {
      assert data.items[..i + 1][..i] == data.items[..i];
      instance.fields := Assign(instance.fields, data.items[i]);
      i := i + 1;
    }
    assert data.items[..i] == data.items;
    var idField := new CustomIdField(Some(TaskFieldPrefix), None, None);
    var _ := idField.PreSave(instance, false, micros, digest);
    instance.fields := instance.fields.(updatedAt := now);
    if categoryIds.Some? {
      var matching := MatchingCategories(categories, categoryIds.value);
      instance.fields := instance.fields.(categories := CategoryIds(matching));
    }
  }

  /** What `update` promises: each key ends with its last assigned value,
      keys not mentioned keep theirs, creation time never changes, and
      categories change only when `category_ids` is present, where `[]`
      clears them. */
  lemma UpdatedFieldsSpec(f: TaskFields, data: ValidatedData, categories: seq<CategoryRow>, now: int, key: Key)
    ensures var r := UpdatedFields(f, data, categories, now);
      && Agree(r, LastValue(f, data.items, key), key)
      && ((forall i :: 0 <= i < |data.items| ==> KeyOf(data.items[i]) != key) ==> Agree(r, f, key))
      && r.createdAt == f.createdAt && r.updatedAt == now
      && (data.categoryIds.None? ==> r.categories == f.categories)
      && (data.categoryIds == Some([]) ==> r.categories == {})
      && (data.categoryIds.Some? ==>
            forall x :: x in r.categories <==> x in data.categoryIds.value && exists c :: c in categories && c.id == x)
  {
    AssignAllLastWins(f, data.items, key);
    if forall i :: 0 <= i < |data.items| ==> KeyOf(data.items[i]) != key {
      UnassignedUnchanged(f, data.items, key);
    }
  }
}
