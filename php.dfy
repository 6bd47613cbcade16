/** Option and Result, used for PHP's nullable values and thrown exceptions. */
module Wrappers {

  datatype Option<+T> = None | Some(value: T)

  datatype Result<+T, +E> = Success(value: T) | Failure(error: E)
}

/**
  The slice of PHP's value model that the repository touches: scalars, ordered
  arrays with int or string keys, `isset`, `empty`, `substr`, `lcfirst`, array
  reads that yield null for a missing key, array element assignment, and the
  exceptions the repository throws.
 */
module Php {

  /** An array key: PHP keys are integers or strings. */
  datatype Key = IntKey(n: int) | StrKey(s: string)

  /** A PHP value (floats and objects other than models are not needed here). */
  datatype Value =
    | Null
    | Bool(b: bool)
    | Int(n: int)
    | Str(s: string)
    | Arr(entries: seq<(Key, Value)>)

  /** A PHP array: entries in iteration order. */
  type PArray = seq<(Key, Value)>

  /** `isset($v)`: anything but null. */
  predicate IsSet(v: Value) {
    !v.Null?
  }

  /** `empty($v)`: null, false, 0, "", "0" and the empty array. */
  predicate Empty(v: Value) {
    match v
    case Null => true
    case Bool(b) => !b
    case Int(n) => n == 0
    case Str(s) => s == "" || s == "0"
    case Arr(e) => e == []
  }

  /** The keys an array holds. */
  function Keys(a: PArray): set<Key> {
    set i | 0 <= i < |a| :: a[i].0
  }

  /** No key occurs twice, as in every array PHP builds. */
  predicate UniqueKeys(a: PArray) {
    forall i, j | 0 <= i < j < |a| :: a[i].0 != a[j].0
  }

  /** The keys of `[e] + a` are `e`'s key and the keys of `a`. */
  lemma KeysCons(e: (Key, Value), a: PArray)
    ensures Keys([e] + a) == {e.0} + Keys(a)
  {
    var c := [e] + a;
    assert c[0].0 == e.0;
    forall x | x in Keys(c) ensures x in {e.0} + Keys(a) {
      var i :| 0 <= i < |c| && c[i].0 == x;
      if i > 0 { assert a[i - 1].0 == x; }
    }
    forall x | x in Keys(a) ensures x in Keys(c) {
      var i :| 0 <= i < |a| && a[i].0 == x;
      assert c[i + 1].0 == x;
    }
  }

  /** `$a[$k]` as a read: the value stored under `k`, or null (with a warning) if there is none. */
  function Lookup(a: PArray, k: Key): (v: Value)
    ensures k !in Keys(a) ==> v == Null
    ensures UniqueKeys(a) ==> forall i | 0 <= i < |a| && a[i].0 == k :: v == a[i].1
  {
    if a == [] then Null
    else if a[0].0 == k then a[0].1
    else
      KeysCons(a[0], a[1..]);
      assert a == [a[0]] + a[1..];
      assert forall i | 1 <= i < |a| :: a[i] == a[1..][i - 1];
      Lookup(a[1..], k)
  }

  /** `$a[$k] = $v`: overwrites in place when `k` is present, appends otherwise. */
  function Put(a: PArray, k: Key, v: Value): (r: PArray)
    ensures Keys(r) == Keys(a) + {k}
    ensures k in Keys(a) ==> |r| == |a|
    ensures k !in Keys(a) ==> r == a + [(k, v)]
  {
    if a == [] then
      KeysCons((k, v), []);
      assert Keys([]) == {};
      [(k, v)]
    else
      KeysCons(a[0], a[1..]);
      assert a == [a[0]] + a[1..];
      if a[0].0 == k then
        KeysCons((k, v), a[1..]);
        [(k, v)] + a[1..]
      else
        var rest := Put(a[1..], k, v);
        KeysCons(a[0], rest);
        [a[0]] + rest
  }

  /** The tail of an array with unique keys has unique keys, none equal to the head's. */
  lemma UniqueTail(a: PArray)
    requires a != [] && UniqueKeys(a)
    ensures UniqueKeys(a[1..]) && a[0].0 !in Keys(a[1..])
  {
    forall i, j | 0 <= i < j < |a| - 1 ensures a[1..][i].0 != a[1..][j].0 {
      assert a[1..][i] == a[i + 1] && a[1..][j] == a[j + 1];
    }
  }

  /** `$a[$k] = $v` keeps the keys unique. */
  lemma {:induction false} PutUnique(a: PArray, k: Key, v: Value)
    requires UniqueKeys(a)
    ensures UniqueKeys(Put(a, k, v))
  {
    var r := Put(a, k, v);
    if a != [] && a[0].0 != k {
      var rest := Put(a[1..], k, v);
      UniqueTail(a);
      PutUnique(a[1..], k, v);
      assert r == [a[0]] + rest;
      assert a[0].0 !in Keys(rest);
      forall i, j | 0 <= i < j < |r| ensures r[i].0 != r[j].0 {
        assert r[j] == rest[j - 1];
        if i == 0 {
          assert rest[j - 1].0 in Keys(rest);
        } else {
          assert r[i] == rest[i - 1];
        }
      }
    } else if a != [] {
      forall i, j | 0 <= i < j < |r| ensures r[i].0 != r[j].0 {
        assert r[j].0 == a[j].0;
        if i > 0 { assert r[i].0 == a[i].0; }
      }
    }
  }

  /** After `$a[$k] = $v` the key reads `v` and every other key reads as before. */
  lemma {:induction false} PutLookup(a: PArray, k: Key, v: Value, k': Key)
    ensures Lookup(Put(a, k, v), k) == v
    ensures k' != k ==> Lookup(Put(a, k, v), k') == Lookup(a, k')
  {
    var r := Put(a, k, v);
    if a == [] {
    } else if a[0].0 == k {
      assert r[1..] == a[1..];
    } else {
      PutLookup(a[1..], k, v, k');
      assert r[1..] == Put(a[1..], k, v);
    }
  }

  /** With unique keys, `$a[$k] = $v` on a present key replaces that entry where it stands and leaves every other entry as it was. */
  lemma {:induction false} PutInPlace(a: PArray, k: Key, v: Value)
    requires UniqueKeys(a)
    ensures forall i | 0 <= i < |a| && a[i].0 == k :: Put(a, k, v) == a[i := (k, v)]
  {
    if a != [] {
      UniqueTail(a);
      PutInPlace(a[1..], k, v);
      forall i | 0 <= i < |a| && a[i].0 == k ensures Put(a, k, v) == a[i := (k, v)] {
        if i == 0 {
          assert a[i := (k, v)] == [(k, v)] + a[1..];
        } else {
          assert a[1..][i - 1].0 == k;
          assert a[0].0 != k;
          assert a[i := (k, v)] == [a[0]] + a[1..][i - 1 := (k, v)];
        }
      }
    }
  }

  predicate IsUpper(c: char) {
    'A' <= c <= 'Z'
  }

  predicate IsLower(c: char) {
    'a' <= c <= 'z'
  }

  /** `lcfirst`: lower-cases the first character when it is an ASCII capital letter. */
  function LcFirst(s: string): (r: string)
    ensures |r| == |s|
    ensures s != [] ==> r[1..] == s[1..] && !IsUpper(r[0])
    ensures s != [] && IsUpper(s[0]) ==> IsLower(r[0]) && r[0] as int == s[0] as int + 32
    ensures s == [] || !IsUpper(s[0]) ==> r == s
  {
    if s != [] && IsUpper(s[0]) then [(s[0] as int + 32) as char] + s[1..] else s
  }

  /** `ucfirst`: upper-cases the first character when it is an ASCII small letter. */
  function UcFirst(s: string): (r: string)
    ensures |r| == |s|
    ensures s != [] ==> r[1..] == s[1..] && !IsLower(r[0])
    ensures s != [] && IsLower(s[0]) ==> IsUpper(r[0]) && r[0] as int == s[0] as int - 32
    ensures s == [] || !IsLower(s[0]) ==> r == s
  {
    if s != [] && IsLower(s[0]) then [(s[0] as int - 32) as char] + s[1..] else s
  }

  /** `lcfirst(ucfirst($s)) === $s` exactly when `$s` does not start with a capital letter. */
  lemma LcFirstUndoesUcFirst(s: string)
    ensures LcFirst(UcFirst(s)) == s <==> s == [] || !IsUpper(s[0])
  {
    if s != [] && IsUpper(s[0]) {
      assert LcFirst(UcFirst(s))[0] != s[0];
    }
  }

  /** `substr($s, $start, $length)` for a non-negative start and length. */
  function Substr(s: string, start: nat, length: nat): (r: string)
    ensures start >= |s| ==> r == ""
    ensures start <= |s| ==> |r| == if start + length <= |s| then length else |s| - start
    ensures forall i | 0 <= i < |r| :: r[i] == s[start + i]
  {
    if start >= |s| then ""
    else if start + length <= |s| then s[start..start + length]
    else s[start..]
  }

  /** `s` begins with `p`. */
  predicate HasPrefix(s: string, p: string) {
    |p| <= |s| && s[..|p|] == p
  }

  /** `substr($s, 0, strlen($p)) == $p` is exactly the prefix test. */
  lemma SubstrPrefix(s: string, p: string)
    ensures Substr(s, 0, |p|) == p <==> HasPrefix(s, p)
  {
    if HasPrefix(s, p) {
      assert Substr(s, 0, |p|) == s[..|p|];
    }
  }

  /** `substr($s, strlen($p), strlen($s))` is everything after the prefix. */
  lemma SubstrSuffix(s: string, n: nat)
    requires n <= |s|
    ensures Substr(s, n, |s|) == s[n..]
  {
  }

  /** The exceptions the repository throws, or that PHP throws on its behalf. */
  datatype Exception =
    | MissingArgument
    | UndefinedMethod(name: string)
    | InvalidClassName(className: Value)
    | NullModel(member: string)

  /** The message text of each exception. */
  function Message(e: Exception): string {
    match e
    case MissingArgument => "You must have one argument"
    case UndefinedMethod(m) =>
      "Undefined method '" + m + "'. The method name must start with either findBy or findOneBy!"
    case InvalidClassName(_) => "Class name must be a valid object or a string"
    case NullModel(member) => "Call to a member function " + member + "() on null"
  }
}
