/**
  The abstract repository: one loaded model, the name of its model class and
  the name of its transformer class, with the operations that read and set
  them. Every call into the ORM goes through an `Orm` value whose functions
  are opaque: the model states which ORM call is made, with what, and which
  field ends up holding the answer.
 */
module Repositories {
  import opened Wrappers
  import opened Php
  import opened QueryBuilder
  import opened DynamicFinder
  import opened Attributes

  /** A model instance as the ORM hands it out. */
  datatype Record = Record(handle: nat, attributes: AttributeArray)

  /** What the ORM's `paginate` returns. */
  datatype Paginator = Paginator(items: seq<Record>, perPage: Value, total: nat)

  /** The ORM, as opaque functions: the model class's statics, a builder's terminal calls, and a model's own. */
  datatype Orm = Orm(
    findUuid: (string, Value) -> Option<Record>,    // ModelClass::findUuid($uuid)
    find: (string, Value) -> Option<Record>,        // ModelClass::find($id)
    all: string -> seq<Record>,                     // ModelClass::all()
    create: (string, PArray) -> Record,             // ModelClass::create($data)
    firstOrCreate: (string, PArray) -> Record,      // ModelClass::firstOrCreate($data)
    first: Builder -> Option<Record>,               // $query->first()
    get: Builder -> seq<Record>,                    // $query->get()
    paginate: (Builder, Value) -> Paginator,        // $query->paginate($perPage)
    update: (Record, PArray) -> Record,             // $model->update($data), the model afterwards
    refresh: Record -> Record                       // $model->refresh()
  )

  /** What a dynamic finder returns: `findBy`'s builder or `findOneBy`'s first match. */
  datatype FinderResult = Query(builder: Builder) | FirstMatch(record: Option<Record>)

  /** A class-name field is null or a value PHP does not call empty. */
  predicate NullOrNonEmpty(v: Value) {
    v.Null? || !Empty(v)
  }

  /** The builder a fresh instance of class `c` starts. */
  function Fresh(c: string): Builder {
    Builder(NewModel(c), [])
  }

  /** The criteria `updateOrCreate` builds: `$criteria[$k] = $modelArray[$k]` for each query key in turn. */
  function QueryCriteria(modelArray: PArray, queryKeys: seq<Key>): PArray {
    if queryKeys == [] then []
    else
      var k := queryKeys[|queryKeys| - 1];
      Put(QueryCriteria(modelArray, queryKeys[..|queryKeys| - 1]), k, Lookup(modelArray, k))
  }

  /** The criteria's keys are exactly the query keys. */
  lemma {:induction false} QueryCriteriaKeys(modelArray: PArray, queryKeys: seq<Key>)
    ensures Keys(QueryCriteria(modelArray, queryKeys)) == set k | k in queryKeys
  {
    if queryKeys != [] {
      var init := queryKeys[..|queryKeys| - 1];
      var k := queryKeys[|queryKeys| - 1];
      QueryCriteriaKeys(modelArray, init);
      assert queryKeys == init + [k];
      forall x ensures x in queryKeys <==> x in init || x == k { }
    }
  }

  /** No key occurs twice in the criteria, however often the query keys repeat one. */
  lemma {:induction false} QueryCriteriaUnique(modelArray: PArray, queryKeys: seq<Key>)
    ensures UniqueKeys(QueryCriteria(modelArray, queryKeys))
  {
    if queryKeys != [] {
      var init := queryKeys[..|queryKeys| - 1];
      var k := queryKeys[|queryKeys| - 1];
      QueryCriteriaUnique(modelArray, init);
      PutUnique(QueryCriteria(modelArray, init), k, Lookup(modelArray, k));
    }
  }

  /** Each criterion reads what the model array holds under its key (null when it holds nothing). */
  lemma {:induction false} QueryCriteriaValues(modelArray: PArray, queryKeys: seq<Key>)
    ensures forall k | k in queryKeys :: Lookup(QueryCriteria(modelArray, queryKeys), k) == Lookup(modelArray, k)
  {
    if queryKeys != [] {
      var init := queryKeys[..|queryKeys| - 1];
      var k := queryKeys[|queryKeys| - 1];
      var before := QueryCriteria(modelArray, init);
      QueryCriteriaValues(modelArray, init);
      assert queryKeys == init + [k];
      forall k' | k' in queryKeys
        ensures Lookup(QueryCriteria(modelArray, queryKeys), k') == Lookup(modelArray, k')
      {
        PutLookup(before, k, Lookup(modelArray, k), k');
      }
    }
  }

  class Repository {
    var model: Option<Record>
    var modelClass: Value
    var transformerClass: Value

    /**
      Once set, a class name is never one PHP calls empty: `load` keeps the old
      one instead. `load` is the only method that assigns the class names; the
      others may change `model` alone, so they keep this too.
     */
    ghost predicate Valid()
      reads this
    {
      NullOrNonEmpty(modelClass) && NullOrNonEmpty(transformerClass)
    }

    /** The fields of a new repository are all null. */
    constructor ()
      ensures Valid()
      ensures model == None && modelClass == Null && transformerClass == Null
    {
      model := None;
      modelClass := Null;
      transformerClass := Null;
    }

    /** `$customQuery ?? new $this->modelClass`: only a string names a class. */
    function Base(customQuery: Option<Builder>): Result<Builder, Exception>
      reads this
    {
      if customQuery.Some? then Success(customQuery.value)
      else if modelClass.Str? then Success(Fresh(modelClass.s))
      else Failure(InvalidClassName(modelClass))
    }

    /**
      `load($uuid, $modelClass, $transformerClass)`: each class name is replaced
      unless its argument is empty, then the model is looked up by uuid. The
      names are assigned before the lookup, so they change even when it throws.
     */
    method Load(orm: Orm, uuid: Value, modelClassArg: Value, transformerClassArg: Value)
      returns (r: Result<Repository, Exception>)
      requires Valid()
      modifies this
      ensures Valid()
      ensures modelClass == if Empty(modelClassArg) then old(modelClass) else modelClassArg
      ensures transformerClass == if Empty(transformerClassArg) then old(transformerClass) else transformerClassArg
      ensures modelClass.Str? ==> model == orm.findUuid(modelClass.s, uuid) && r == Success(this)
      ensures !modelClass.Str? ==> model == old(model) && r == Failure(InvalidClassName(modelClass))
    {
      modelClass := if Empty(modelClassArg) then modelClass else modelClassArg;
      transformerClass := if Empty(transformerClassArg) then transformerClass else transformerClassArg;
      if !modelClass.Str? {
        return Failure(InvalidClassName(modelClass));
      }
      model := orm.findUuid(modelClass.s, uuid);
      r := Success(this);
    }

    /** `loadModel($model)`: the given model, null included, becomes the loaded one. */
    method LoadModel(m: Option<Record>) returns (r: Repository)
      modifies this`model
      ensures model == m && r == this
    {
      model := m;
      r := this;
    }

    /** `find($id)`: the model class's `find`. */
    method Find(orm: Orm, id: Value) returns (r: Result<Option<Record>, Exception>)
      ensures modelClass.Str? ==> r == Success(orm.find(modelClass.s, id))
      ensures !modelClass.Str? ==> r == Failure(InvalidClassName(modelClass))
    {
      if !modelClass.Str? {
        return Failure(InvalidClassName(modelClass));
      }
      r := Success(orm.find(modelClass.s, id));
    }

    /** `findAll()`: the model class's `all`. */
    method FindAll(orm: Orm) returns (r: Result<seq<Record>, Exception>)
      ensures modelClass.Str? ==> r == Success(orm.all(modelClass.s))
      ensures !modelClass.Str? ==> r == Failure(InvalidClassName(modelClass))
    {
      if !modelClass.Str? {
        return Failure(InvalidClassName(modelClass));
      }
      r := Success(orm.all(modelClass.s));
    }

    /** `findAndLoad($id)`: what `find` returns, null included, becomes the loaded model. */
    method FindAndLoad(orm: Orm, id: Value) returns (r: Result<Option<Record>, Exception>)
      modifies this`model
      ensures modelClass.Str? ==> model == orm.find(modelClass.s, id) && r == Success(model)
      ensures !modelClass.Str? ==> model == old(model) && r == Failure(InvalidClassName(modelClass))
    {
      var found := Find(orm, id);
      if found.Failure? {
        return Failure(found.error);
      }
      model := found.value;
      r := Success(model);
    }

    /**
      `findBy($criteria, $orderBy, $limit, $offset, $customQuery)`: starting
      from the custom query or a fresh model, one `where` per criteria entry,
      one `orderBy` per order-by entry, then `take` and `skip` when set
      (QueryBuilder.BuildLayout and QueryBuilder.BuildPaging state the layout).
     */
    method FindBy(criteria: PArray, orderBy: PArray, limit: Value, offset: Value, customQuery: Option<Builder>)
      returns (r: Result<Builder, Exception>)
      ensures r.Failure? <==> customQuery.None? && !modelClass.Str?
      ensures r.Failure? ==> r.error == InvalidClassName(modelClass)
      ensures r.Success? ==> r.value == Build(Base(customQuery).value, criteria, orderBy, limit, offset)
    {
      var transaction: Builder;
      if customQuery.Some? {
        transaction := customQuery.value;
      } else if modelClass.Str? {
        transaction := Fresh(modelClass.s);
      } else {
        return Failure(InvalidClassName(modelClass));
      }
      ghost var base := transaction;

      var i := 0;
      while i < |criteria|
        invariant 0 <= i <= |criteria|
        invariant transaction.origin == base.origin
        invariant transaction.ops == base.ops + CriteriaOps(criteria[..i])
      {
        var key, value := criteria[i].0, criteria[i].1;
        var op: Op;
        if value.Arr? {
          var v := value.entries;
          op := Where3(Lookup(v, IntKey(0)), Lookup(v, IntKey(1)), Lookup(v, IntKey(2)));
        } else {
          op := Where2(key, value);
        }
        assert op == CriterionOp(criteria[i].0, criteria[i].1);
        ghost var before := transaction.ops;
        transaction := transaction.Then(op);
        CriteriaOpsStep(criteria, i);
        assert transaction.ops == before + [op] == base.ops + (CriteriaOps(criteria[..i]) + [op]);
        i := i + 1;
      }
      assert criteria[..i] == criteria;

      var j := 0;
      while j < |orderBy|
        invariant 0 <= j <= |orderBy|
        invariant transaction.origin == base.origin
        invariant transaction.ops == base.ops + CriteriaOps(criteria) + OrderOps(orderBy[..j])
      {
        var attribute, order := orderBy[j].0, orderBy[j].1;
        ghost var before := transaction.ops;
        transaction := transaction.Then(OrderBy(attribute, order));
        OrderOpsStep(orderBy, j);
        assert transaction.ops == before + [OrderBy(attribute, order)]
          == base.ops + CriteriaOps(criteria) + (OrderOps(orderBy[..j]) + [OrderBy(attribute, order)]);
        j := j + 1;
      }
      assert orderBy[..j] == orderBy;

      ghost var ordered := transaction.ops;
      transaction := if IsSet(limit) then transaction.Then(Take(limit)) else transaction;
      assert transaction.ops == ordered + LimitOps(limit);
      transaction := if IsSet(offset) then transaction.Then(Skip(offset)) else transaction;
      assert transaction.ops == ordered + LimitOps(limit) + OffsetOps(offset);
      r := Success(transaction);
    }

    /** `findOneBy($criteria)`: the first match of `findBy($criteria)` on a fresh model. */
    method FindOneBy(orm: Orm, criteria: PArray) returns (r: Result<Option<Record>, Exception>)
      ensures modelClass.Str? ==> r == Success(orm.first(Build(Fresh(modelClass.s), criteria, [], Null, Null)))
      ensures !modelClass.Str? ==> r == Failure(InvalidClassName(modelClass))
    {
      var query := FindBy(criteria, [], Null, Null, None);
      if query.Failure? {
        return Failure(query.error);
      }
      r := Success(orm.first(query.value));
    }

    /**
      `getModelAttributes($hiddenAttributes)`: nothing when no model is loaded;
      otherwise the model's attribute names, each under its original position,
      in order, without the hidden ones and without anything else removed.
     */
    method ModelAttributes(hidden: seq<string>) returns (r: seq<(nat, string)>)
      ensures model.None? ==> r == []
      ensures model.Some? ==> r == Without(KeyList(model.value.attributes), hidden)
      ensures forall i: nat, n: string :: (i, n) in r <==>
        model.Some? && i < |model.value.attributes| && model.value.attributes[i].0 == n && n !in hidden
      ensures Ascending(r)
    {
      var all := if model.Some? then KeyList(model.value.attributes) else [];
      var modelAttributes := all;
      assert Ascending(all) && UniqueNames(all);
      WithoutNone(all);
      for k := 0 to |hidden|
        invariant modelAttributes == Without(all, hidden[..k])
      {
        var key := SearchKey(modelAttributes, hidden[k]);
        if key.Some? {
          modelAttributes := Unset(modelAttributes, key.value);
        }
        HideStep(all, hidden[..k], hidden[k]);
        assert hidden[..k + 1] == hidden[..k] + [hidden[k]];
      }
      assert hidden[..|hidden|] == hidden;
      r := modelAttributes;
      if model.Some? {
        VisibleAttributes(model.value.attributes, hidden);
      }
    }

    /** `create($data)`: the model class's `create`; the new model becomes the loaded one. */
    method Create(orm: Orm, data: PArray) returns (r: Result<Record, Exception>)
      modifies this`model
      ensures modelClass.Str? ==> model == Some(orm.create(modelClass.s, data)) && r == Success(model.value)
      ensures !modelClass.Str? ==> model == old(model) && r == Failure(InvalidClassName(modelClass))
    {
      if !modelClass.Str? {
        return Failure(InvalidClassName(modelClass));
      }
      model := Some(orm.create(modelClass.s, data));
      r := Success(model.value);
    }

    /** `firstOrCreate($data)`: the model class's `firstOrCreate`; its answer becomes the loaded model. */
    method FirstOrCreate(orm: Orm, data: PArray) returns (r: Result<Record, Exception>)
      modifies this`model
      ensures modelClass.Str? ==> model == Some(orm.firstOrCreate(modelClass.s, data)) && r == Success(model.value)
      ensures !modelClass.Str? ==> model == old(model) && r == Failure(InvalidClassName(modelClass))
    {
      if !modelClass.Str? {
        return Failure(InvalidClassName(modelClass));
      }
      model := Some(orm.firstOrCreate(modelClass.s, data));
      r := Success(model.value);
    }

    /** `show()`: the loaded model, refreshed in place; calling it on a null model throws. */
    method Show(orm: Orm) returns (r: Result<Record, Exception>)
      modifies this`model
      ensures old(model).None? ==> model == None && r == Failure(NullModel("refresh"))
      ensures old(model).Some? ==> model == Some(orm.refresh(old(model).value)) && r == Success(model.value)
    {
      if model.None? {
        return Failure(NullModel("refresh"));
      }
      model := Some(orm.refresh(model.value));
      r := Success(model.value);
    }

    /** `update($data)`: the loaded model, updated in place, is returned; a null model throws. */
    method Update(orm: Orm, data: PArray) returns (r: Result<Record, Exception>)
      modifies this`model
      ensures old(model).None? ==> model == None && r == Failure(NullModel("update"))
      ensures old(model).Some? ==> model == Some(orm.update(old(model).value, data)) && r == Success(model.value)
    {
      if model.None? {
        return Failure(NullModel("update"));
      }
      model := Some(orm.update(model.value, data));
      r := Success(model.value);
    }

    /** `delete()`: returns the loaded model as it was; a null model throws. */
    method Delete() returns (r: Result<Record, Exception>)
      ensures model.None? ==> r == Failure(NullModel("delete"))
      ensures model.Some? ==> r == Success(model.value)
    {
      if model.None? {
        return Failure(NullModel("delete"));
      }
      r := Success(model.value);
    }

    /**
      `__call($method, $arguments)`: a missing or null first argument throws
      before the name is looked at; a `findBy...` name yields the builder of a
      fresh model with the single condition `where(column, '=', argument)`; a
      `findOneBy...` name yields the first match of that builder; any other
      name throws.
     */
    method Call(orm: Orm, name: string, arguments: seq<Value>) returns (r: Result<FinderResult, Exception>)
      ensures !HasArgument(arguments) ==> r == Failure(MissingArgument)
      ensures HasArgument(arguments) && !HasPrefix(name, FindByPrefix) && !HasPrefix(name, FindOneByPrefix) ==>
        r == Failure(UndefinedMethod(name))
      ensures (HasArgument(arguments) && (HasPrefix(name, FindByPrefix) || HasPrefix(name, FindOneByPrefix))
        && !modelClass.Str?) ==> r == Failure(InvalidClassName(modelClass))
      ensures HasArgument(arguments) && HasPrefix(name, FindByPrefix) && modelClass.Str? ==>
        r == Success(Query(Fresh(modelClass.s).Then(
          Where3(Str(LcFirst(name[|FindByPrefix|..])), Str("="), arguments[0]))))
      ensures (HasArgument(arguments) && !HasPrefix(name, FindByPrefix) && HasPrefix(name, FindOneByPrefix)
        && modelClass.Str?) ==>
        r == Success(FirstMatch(orm.first(Fresh(modelClass.s).Then(
          Where3(Str(LcFirst(name[|FindOneByPrefix|..])), Str("="), arguments[0])))))
    {
      var call := ParseFinder(name, arguments);
      if call.Failure? {
        return Failure(call.error);
      }
      var column := call.value.criteria[0].1.entries[0].1.s;
      if modelClass.Str? {
        CriterionQuery(Fresh(modelClass.s), column, arguments[0]);
      }
      if call.value.finder.FindBy? {
        var query := FindBy(call.value.criteria, [], Null, Null, None);
        if query.Failure? {
          return Failure(query.error);
        }
        r := Success(Query(query.value));
      } else {
        var found := FindOneBy(orm, call.value.criteria);
        if found.Failure? {
          return Failure(found.error);
        }
        r := Success(FirstMatch(found.value));
      }
    }

    /**
      `updateOrCreate($modelArray, $queryKeys)`: looks for a model matching
      the query keys' values; a match becomes the loaded model and is updated
      with the whole array, otherwise the array is created as a new model.
     */
    method UpdateOrCreate(orm: Orm, modelArray: PArray, queryKeys: seq<Key>) returns (r: Result<Record, Exception>)
      modifies this`model
      ensures !modelClass.Str? ==> model == old(model) && r == Failure(InvalidClassName(modelClass))
      ensures modelClass.Str? ==>
        var existent := orm.first(Build(Fresh(modelClass.s), QueryCriteria(modelArray, queryKeys), [], Null, Null));
        && (existent.Some? ==> model == Some(orm.update(existent.value, modelArray)))
        && (existent.None? ==> model == Some(orm.create(modelClass.s, modelArray)))
        && r == Success(model.value)
    {
      var criteria: PArray := [];
      for i := 0 to |queryKeys|
        invariant criteria == QueryCriteria(modelArray, queryKeys[..i])
      {
        criteria := Put(criteria, queryKeys[i], Lookup(modelArray, queryKeys[i]));
        assert queryKeys[..i + 1][..i] == queryKeys[..i];
      }
      assert queryKeys[..|queryKeys|] == queryKeys;

      var existentModel := FindOneBy(orm, criteria);
      if existentModel.Failure? {
        return Failure(existentModel.error);
      }
      if existentModel.value.Some? {
        var _ := LoadModel(existentModel.value);
        r := Update(orm, modelArray);
      } else {
        r := Create(orm, modelArray);
      }
    }

    /** `index($criteria, $orderBy, $limit, $offset)`: every model when the criteria are null or empty, else `findBy(...)->get()`. */
    method Index(orm: Orm, criteria: Option<PArray>, orderBy: PArray, limit: Value, offset: Value)
      returns (r: Result<seq<Record>, Exception>)
      ensures !modelClass.Str? ==> r == Failure(InvalidClassName(modelClass))
      ensures modelClass.Str? && (criteria.None? || criteria.value == []) ==> r == Success(orm.all(modelClass.s))
      ensures modelClass.Str? && criteria.Some? && criteria.value != [] ==>
        r == Success(orm.get(Build(Fresh(modelClass.s), criteria.value, orderBy, limit, offset)))
    {
      if criteria.None? || criteria.value == [] {
        r := FindAll(orm);
      } else {
        var query := FindBy(criteria.value, orderBy, limit, offset, None);
        if query.Failure? {
          return Failure(query.error);
        }
        r := Success(orm.get(query.value));
      }
    }

    /** `paginate($criteria, $itemsPerPage, $customQuery)`: null criteria mean none, a null page size means 10. */
    method Paginate(orm: Orm, criteria: Option<PArray>, itemsPerPage: Value, customQuery: Option<Builder>)
      returns (r: Result<Paginator, Exception>)
      ensures customQuery.None? && !modelClass.Str? ==> r == Failure(InvalidClassName(modelClass))
      ensures customQuery.Some? || modelClass.Str? ==>
        var c := if criteria.Some? then criteria.value else [];
        var perPage := if IsSet(itemsPerPage) then itemsPerPage else Int(10);
        var base := if customQuery.Some? then customQuery.value else Fresh(modelClass.s);
        r == Success(orm.paginate(Build(base, c, [], Null, Null), perPage))
    {
      var query := FindBy(if criteria.Some? then criteria.value else [], [], Null, Null, customQuery);
      if query.Failure? {
        return Failure(query.error);
      }
      r := Success(orm.paginate(query.value, if IsSet(itemsPerPage) then itemsPerPage else Int(10)));
    }
  }
}
