/**
  The magic-method dispatcher `__call`: a call such as `findByEmail($x)` or
  `findOneByEmail($x)` on a name the repository does not declare becomes
  `findBy([['email', '=', $x]])` or `findOneBy([['email', '=', $x]])`.
 */
module DynamicFinder {
  import opened Wrappers
  import opened Php
  import opened QueryBuilder

  /** The declared method a dynamic name forwards to. */
  datatype Finder = FindBy | FindOneBy

  /** The forwarded call: which finder, with which criteria array. */
  datatype FinderCall = FinderCall(finder: Finder, criteria: PArray)

  const FindByPrefix: string := "findBy"
  const FindOneByPrefix: string := "findOneBy"

  /** `[[column, '=', argument]]`: one criteria entry, itself a three-element list. */
  function Criterion(column: string, argument: Value): PArray {
    [(IntKey(0), Arr([(IntKey(0), Str(column)), (IntKey(1), Str("=")), (IntKey(2), argument)]))]
  }

  /** `isset($arguments[0])`: a first argument is there and is not null. */
  predicate HasArgument(arguments: seq<Value>) {
    |arguments| > 0 && IsSet(arguments[0])
  }

  /**
    `__call($method, $arguments)` up to the forwarded call. The argument check
    comes first, whatever the name; then the `findBy` prefix is tried, then
    `findOneBy`; the column is what follows the prefix with its first letter
    lower-cased.
   */
  function ParseFinder(name: string, arguments: seq<Value>): (r: Result<FinderCall, Exception>)
    ensures r == Failure(MissingArgument) <==> !HasArgument(arguments)
    ensures (r.Success? && r.value.finder == FindBy) <==>
      HasArgument(arguments) && HasPrefix(name, FindByPrefix)
    ensures (r.Success? && r.value.finder == FindOneBy) <==>
      HasArgument(arguments) && !HasPrefix(name, FindByPrefix) && HasPrefix(name, FindOneByPrefix)
    ensures r == Failure(UndefinedMethod(name)) <==>
      HasArgument(arguments) && !HasPrefix(name, FindByPrefix) && !HasPrefix(name, FindOneByPrefix)
    ensures r.Success? && r.value.finder == FindBy ==>
      r.value.criteria == Criterion(LcFirst(name[|FindByPrefix|..]), arguments[0])
    ensures r.Success? && r.value.finder == FindOneBy ==>
      r.value.criteria == Criterion(LcFirst(name[|FindOneByPrefix|..]), arguments[0])
  {
    SubstrPrefix(name, FindByPrefix);
    SubstrPrefix(name, FindOneByPrefix);
    if !HasArgument(arguments) then
      Failure(MissingArgument)
    else if Substr(name, 0, 6) == FindByPrefix then
      SubstrSuffix(name, 6);
      Success(FinderCall(FindBy, Criterion(LcFirst(Substr(name, 6, |name|)), arguments[0])))
    else if Substr(name, 0, 9) == FindOneByPrefix then
      SubstrSuffix(name, 9);
      Success(FinderCall(FindOneBy, Criterion(LcFirst(Substr(name, 9, |name|)), arguments[0])))
    else
      Failure(UndefinedMethod(name))
  }

  /** No `findOneBy...` name is captured by the `findBy` test: their fifth characters differ. */
  lemma FindOneByIsNotFindBy(name: string)
    requires HasPrefix(name, FindOneByPrefix)
    ensures !HasPrefix(name, FindByPrefix)
  {
    assert name[4] == FindOneByPrefix[4] == 'O';
    assert FindByPrefix[4] == 'B';
  }

  /** The name a caller writes to filter on `column`: the prefix, then the column with a capital first letter. */
  function FinderName(finder: Finder, column: string): string {
    (if finder == FindBy then FindByPrefix else FindOneByPrefix) + UcFirst(column)
  }

  /**
    Round trip: writing `findByColumn($v)` or `findOneByColumn($v)` for a
    column that does not itself start with a capital letter and a non-null
    `$v` forwards exactly `[[column, '=', $v]]` to the finder named.
   */
  lemma {:induction false} FinderNameRoundTrip(finder: Finder, column: string, argument: Value)
    requires column == [] || !IsUpper(column[0])
    requires IsSet(argument)
    ensures ParseFinder(FinderName(finder, column), [argument]) == Success(FinderCall(finder, Criterion(column, argument)))
  {
    var name := FinderName(finder, column);
    var prefix := if finder == FindBy then FindByPrefix else FindOneByPrefix;
    assert name[..|prefix|] == prefix && name[|prefix|..] == UcFirst(column);
    LcFirstUndoesUcFirst(column);
    if finder == FindOneBy {
      FindOneByIsNotFindBy(name);
    }
  }

  /**
    A column whose name starts with a capital letter is reached by no dynamic
    finder at all: whatever the name and the arguments, the column forwarded
    has been through `lcfirst`, so its first letter is never a capital.
   */
  lemma CapitalColumnLost(name: string, arguments: seq<Value>, finder: Finder, column: string, argument: Value)
    requires column != [] && IsUpper(column[0])
    ensures ParseFinder(name, arguments) != Success(FinderCall(finder, Criterion(column, argument)))
  {
    var r := ParseFinder(name, arguments);
    if r.Success? {
      var forwarded := r.value.criteria[0].1.entries[0].1.s;
      assert forwarded == LcFirst(name[|FindByPrefix|..]) || forwarded == LcFirst(name[|FindOneByPrefix|..]);
      assert Criterion(column, argument)[0].1.entries[0].1.s == column;
    }
  }

  /** The message of each exception `__call` throws, as the source words it. */
  lemma ParseFinderMessage(name: string, arguments: seq<Value>)
    ensures !HasArgument(arguments) ==>
      ParseFinder(name, arguments).Failure? && Message(ParseFinder(name, arguments).error) == "You must have one argument"
    ensures HasArgument(arguments) && !HasPrefix(name, FindByPrefix) && !HasPrefix(name, FindOneByPrefix) ==>
      ParseFinder(name, arguments).Failure? &&
      Message(ParseFinder(name, arguments).error) ==
        "Undefined method '" + name + "'. The method name must start with either findBy or findOneBy!"
  {
  }

  /**
    What `findBy` builds from a dynamic finder's criteria: the base plus
    exactly one three-argument `where(column, '=', argument)`, with no order,
    limit or offset.
   */
  lemma {:induction false} CriterionQuery(base: Builder, column: string, argument: Value)
    ensures Build(base, Criterion(column, argument), [], Null, Null)
      == Builder(base.origin, base.ops + [Where3(Str(column), Str("="), argument)])
  {
    var c := Criterion(column, argument);
    var entries := c[0].1.entries;
    assert UniqueKeys(entries);
    assert entries[0].0 == IntKey(0) && entries[1].0 == IntKey(1) && entries[2].0 == IntKey(2);
    assert Lookup(entries, IntKey(0)) == Str(column);
    assert Lookup(entries, IntKey(1)) == Str("=");
    assert Lookup(entries, IntKey(2)) == argument;
    assert c[..0] == [];
    assert CriteriaOps(c) == [Where3(Str(column), Str("="), argument)];
  }
}
