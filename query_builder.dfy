/**
  The query that `findBy` assembles. The ORM's builder is opaque here: a
  builder is where it started (a fresh model instance or a query the caller
  passed in) and the list of calls made on it, in order.
 */
module QueryBuilder {
  import opened Php

  /** Where a builder came from. */
  datatype Origin =
    | NewModel(modelClass: string)   // `new $this->modelClass`
    | Custom(handle: nat)            // a `$customQuery` supplied by the caller

  /** One call on the builder. */
  datatype Op =
    | Where3(column: Value, operator: Value, operand: Value)   // where($c, $op, $v)
    | Where2(key: Key, operand: Value)                         // where($key, $v)
    | OrderBy(attribute: Key, direction: Value)                // orderBy($attribute, $order)
    | Take(count: Value)                                       // take($limit)
    | Skip(count: Value)                                       // skip($offset)

  datatype Builder = Builder(origin: Origin, ops: seq<Op>) {
    /** The builder after one more call. */
    function Then(op: Op): Builder {
      Builder(origin, ops + [op])
    }
  }

  /** The builder call for one criteria entry: an array entry spreads its first three elements and ignores its key. */
  function CriterionOp(key: Key, value: Value): Op {
    if value.Arr? then
      Where3(Lookup(value.entries, IntKey(0)), Lookup(value.entries, IntKey(1)), Lookup(value.entries, IntKey(2)))
    else
      Where2(key, value)
  }

  /** The calls made by the first loop of `findBy`, one per criteria entry. */
  function CriteriaOps(criteria: PArray): (ops: seq<Op>)
    ensures |ops| == |criteria|
  {
    if criteria == [] then []
    else
      var last := criteria[|criteria| - 1];
      CriteriaOps(criteria[..|criteria| - 1]) + [CriterionOp(last.0, last.1)]
  }

  /** The calls made by the second loop of `findBy`, one per order-by entry. */
  function OrderOps(orderBy: PArray): (ops: seq<Op>)
    ensures |ops| == |orderBy|
  {
    if orderBy == [] then []
    else
      var last := orderBy[|orderBy| - 1];
      OrderOps(orderBy[..|orderBy| - 1]) + [OrderBy(last.0, last.1)]
  }

  /** `take($limit)` is called only when the limit is set. */
  function LimitOps(limit: Value): seq<Op> {
    if IsSet(limit) then [Take(limit)] else []
  }

  /** `skip($offset)` is called only when the offset is set. */
  function OffsetOps(offset: Value): seq<Op> {
    if IsSet(offset) then [Skip(offset)] else []
  }

  /** One more turn of the criteria loop adds that entry's call. */
  lemma CriteriaOpsStep(criteria: PArray, i: nat)
    requires i < |criteria|
    ensures CriteriaOps(criteria[..i + 1]) == CriteriaOps(criteria[..i]) + [CriterionOp(criteria[i].0, criteria[i].1)]
  {
    assert criteria[..i + 1][..i] == criteria[..i];
  }

  /** One more turn of the order-by loop adds that entry's call. */
  lemma OrderOpsStep(orderBy: PArray, j: nat)
    requires j < |orderBy|
    ensures OrderOps(orderBy[..j + 1]) == OrderOps(orderBy[..j]) + [OrderBy(orderBy[j].0, orderBy[j].1)]
  {
    assert orderBy[..j + 1][..j] == orderBy[..j];
  }

  /** The builder `findBy` returns when it starts from `base`. */
  function Build(base: Builder, criteria: PArray, orderBy: PArray, limit: Value, offset: Value): Builder {
    Builder(base.origin, base.ops + CriteriaOps(criteria) + OrderOps(orderBy) + LimitOps(limit) + OffsetOps(offset))
  }

  lemma {:induction false} CriteriaOpsAt(criteria: PArray)
    ensures forall i | 0 <= i < |criteria| :: CriteriaOps(criteria)[i] == CriterionOp(criteria[i].0, criteria[i].1)
  {
    if criteria != [] {
      var init := criteria[..|criteria| - 1];
      CriteriaOpsAt(init);
      assert forall i | 0 <= i < |init| :: init[i] == criteria[i];
    }
  }

  lemma {:induction false} OrderOpsAt(orderBy: PArray)
    ensures forall i | 0 <= i < |orderBy| :: OrderOps(orderBy)[i] == OrderBy(orderBy[i].0, orderBy[i].1)
  {
    if orderBy != [] {
      var init := orderBy[..|orderBy| - 1];
      OrderOpsAt(init);
      assert forall i | 0 <= i < |init| :: init[i] == orderBy[i];
    }
  }

  /**
    The layout of the calls `findBy` appends to its base: the base's own calls
    stay in front unchanged, then come as many calls as there are criteria
    entries (BuildWhereAt says which), then one `orderBy` per order-by entry
    in order, then at most two more calls (BuildPaging says which).
   */
  lemma BuildLayout(base: Builder, criteria: PArray, orderBy: PArray, limit: Value, offset: Value)
    ensures var q := Build(base, criteria, orderBy, limit, offset);
      var n, c, o := |base.ops|, |criteria|, |orderBy|;
      && q.origin == base.origin
      && |q.ops| == n + c + o + |LimitOps(limit)| + |OffsetOps(offset)|
      && q.ops[..n] == base.ops
      && (forall j | 0 <= j < o :: q.ops[n + c + j] == OrderBy(orderBy[j].0, orderBy[j].1))
  {
    OrderOpsAt(orderBy);
    var q := Build(base, criteria, orderBy, limit, offset);
    var n, c := |base.ops|, |criteria|;
    var co, oo := CriteriaOps(criteria), OrderOps(orderBy);
    var front := base.ops + co;
    var head := front + oo;
    var tail := LimitOps(limit) + OffsetOps(offset);
    assert q.ops == head + tail;
    assert q.ops[..n] == base.ops by {
      assert q.ops[..n] == head[..n] == front[..n];
    }
    forall j | 0 <= j < |orderBy| ensures q.ops[n + c + j] == oo[j] {
      assert q.ops[n + c + j] == head[n + c + j];
    }
  }

  /** The `i`-th criteria entry becomes the `i`-th call after the base's own. */
  lemma BuildWhereAt(base: Builder, criteria: PArray, orderBy: PArray, limit: Value, offset: Value, i: nat)
    requires i < |criteria|
    ensures Build(base, criteria, orderBy, limit, offset).ops[|base.ops| + i] == CriterionOp(criteria[i].0, criteria[i].1)
  {
    CriteriaOpsAt(criteria);
    var co := CriteriaOps(criteria);
    var q := Build(base, criteria, orderBy, limit, offset);
    var front := base.ops + co;
    assert q.ops == front + (OrderOps(orderBy) + LimitOps(limit) + OffsetOps(offset));
    assert q.ops[|base.ops| + i] == front[|base.ops| + i] == co[i];
  }

  /**
    The end of the query: `take($limit)` right after the order-by calls exactly
    when the limit is set, `skip($offset)` last exactly when the offset is set,
    and no other `take` or `skip` among the appended calls.
   */
  lemma BuildPaging(base: Builder, criteria: PArray, orderBy: PArray, limit: Value, offset: Value)
    ensures var q := Build(base, criteria, orderBy, limit, offset);
      var n, m := |base.ops|, |base.ops| + |criteria| + |orderBy|;
      && |q.ops| == m + (if IsSet(limit) then 1 else 0) + (if IsSet(offset) then 1 else 0)
      && (forall k | n <= k < |q.ops| :: q.ops[k].Take? <==> IsSet(limit) && k == m)
      && (forall k | n <= k < |q.ops| :: q.ops[k].Skip? <==> IsSet(offset) && k == |q.ops| - 1)
      && (IsSet(limit) ==> q.ops[m] == Take(limit))
      && (IsSet(offset) ==> q.ops[|q.ops| - 1] == Skip(offset))
  {
    CriteriaOpsAt(criteria);
    OrderOpsAt(orderBy);
    var q := Build(base, criteria, orderBy, limit, offset);
    var n, c := |base.ops|, |criteria|;
    var m := n + c + |orderBy|;
    var co, oo := CriteriaOps(criteria), OrderOps(orderBy);
    var tail := LimitOps(limit) + OffsetOps(offset);
    assert q.ops == (base.ops + co + oo) + tail;
    forall k | n <= k < n + c ensures !q.ops[k].Take? && !q.ops[k].Skip? {
      assert q.ops[k] == co[k - n];
    }
    forall k | n + c <= k < m ensures !q.ops[k].Take? && !q.ops[k].Skip? {
      assert q.ops[k] == oo[k - n - c];
    }
    forall k | m <= k < |q.ops| ensures q.ops[k] == tail[k - m] { }
  }
}
