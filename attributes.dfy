/**
  What `getModelAttributes` works on: the list `array_keys($model->getAttributes())`,
  from which each hidden name is searched for and `unset`. PHP's `unset` does
  not renumber a list, so every surviving name keeps the position it had in
  the attribute array as its key.
 */
module Attributes {
  import opened Wrappers
  import opened Php

  /** Attribute names are keys of the model's attribute array, so no name occurs twice. */
  predicate DistinctNames(a: seq<(string, Value)>) {
    forall i, j | 0 <= i < j < |a| :: a[i].0 != a[j].0
  }

  /** A model's attributes, name to value, in their array order. */
  type AttributeArray = a: seq<(string, Value)> | DistinctNames(a) witness []

  /** `array_keys($attributes)`: the list of names, key `i` holding the `i`-th name. */
  function KeyList(a: AttributeArray): (r: seq<(nat, string)>)
    ensures |r| == |a|
    ensures forall i | 0 <= i < |r| :: r[i] == (i, a[i].0)
  {
    seq(|a|, i requires 0 <= i < |a| => (i, a[i].0))
  }

  /** Keys strictly increase along the list: true of `array_keys` output and kept by `unset`. */
  predicate Ascending(e: seq<(nat, string)>) {
    forall i, j | 0 <= i < j < |e| :: e[i].0 < e[j].0
  }

  /** No name occurs twice. */
  predicate UniqueNames(e: seq<(nat, string)>) {
    forall i, j | 0 <= i < j < |e| :: e[i].1 != e[j].1
  }

  /** `array_search($name, $list)`: the key of the first entry holding `name`, if any (the source tests `!== false`). */
  function SearchKey(e: seq<(nat, string)>, name: string): (r: Option<nat>)
    ensures r.Some? ==> (r.value, name) in e
    ensures r.None? <==> forall x | x in e :: x.1 != name
  {
    if e == [] then None
    else if e[0].1 == name then Some(e[0].0)
    else
      assert forall x | x in e :: x == e[0] || x in e[1..];
      SearchKey(e[1..], name)
  }

  /** `unset($list[$key])`: drops the entry with that key; the others keep their keys. */
  function Unset(e: seq<(nat, string)>, key: nat): (r: seq<(nat, string)>)
    ensures forall x :: x in r <==> x in e && x.0 != key
  {
    if e == [] then []
    else
      assert forall x | x in e :: x == e[0] || x in e[1..];
      (if e[0].0 == key then [] else [e[0]]) + Unset(e[1..], key)
  }

  /** One turn of the loop: search for `name` and unset it when found. */
  function Hide(e: seq<(nat, string)>, name: string): seq<(nat, string)> {
    match SearchKey(e, name)
    case None => e
    case Some(key) => Unset(e, key)
  }

  /** The entries of `e` whose names are not in `hidden`, in order: what the loop is meant to leave. */
  function Without(e: seq<(nat, string)>, hidden: seq<string>): seq<(nat, string)> {
    if e == [] then []
    else (if e[0].1 in hidden then [] else [e[0]]) + Without(e[1..], hidden)
  }

  /** An entry survives exactly when it was there and its name is not hidden. */
  lemma {:induction false} WithoutMembers(e: seq<(nat, string)>, hidden: seq<string>)
    ensures forall x :: x in Without(e, hidden) <==> x in e && x.1 !in hidden
  {
    if e != [] {
      WithoutMembers(e[1..], hidden);
      assert forall x | x in e :: x == e[0] || x in e[1..];
    }
  }

  /** With nothing hidden, nothing is removed. */
  lemma {:induction false} WithoutNone(e: seq<(nat, string)>)
    ensures Without(e, []) == e
  {
    if e != [] {
      WithoutNone(e[1..]);
      assert e == [e[0]] + e[1..];
    }
  }

  /** Filtering keeps the keys in increasing order. */
  lemma {:induction false} WithoutAscending(e: seq<(nat, string)>, hidden: seq<string>)
    requires Ascending(e)
    ensures Ascending(Without(e, hidden))
  {
    if e != [] {
      var t := e[1..];
      assert Ascending(t) by {
        forall i, j | 0 <= i < j < |t| ensures t[i].0 < t[j].0 {
          assert t[i] == e[i + 1] && t[j] == e[j + 1];
        }
      }
      WithoutAscending(t, hidden);
      WithoutMembers(t, hidden);
      var w := Without(t, hidden);
      forall y | y in w ensures e[0].0 < y.0 {
        var j :| 0 <= j < |t| && t[j] == y;
        assert e[j + 1] == y;
      }
      var r := Without(e, hidden);
      if e[0].1 !in hidden {
        assert r == [e[0]] + w;
        forall i, j | 0 <= i < j < |r| ensures r[i].0 < r[j].0 {
          assert r[j] == w[j - 1];
          if i > 0 { assert r[i] == w[i - 1]; } else { assert w[j - 1] in w; }
        }
      }
    }
  }

  /** Hiding a name no entry has changes nothing. */
  lemma {:induction false} WithoutAbsent(e: seq<(nat, string)>, hidden: seq<string>, name: string)
    requires forall x | x in e :: x.1 != name
    ensures Without(e, hidden + [name]) == Without(e, hidden)
  {
    if e != [] {
      assert forall x | x in e[1..] :: x in e;
      WithoutAbsent(e[1..], hidden, name);
    }
  }

  /** Unsetting a key no entry has changes nothing. */
  lemma {:induction false} UnsetAbsent(e: seq<(nat, string)>, key: nat)
    requires forall x | x in e :: x.0 != key
    ensures Unset(e, key) == e
  {
    if e != [] {
      assert forall x | x in e[1..] :: x in e;
      UnsetAbsent(e[1..], key);
      assert e == [e[0]] + e[1..];
    }
  }

  /** The tail of an ascending list with unique names shares neither a key nor a name with its head. */
  lemma TailApart(e: seq<(nat, string)>)
    requires e != [] && Ascending(e) && UniqueNames(e)
    ensures Ascending(e[1..]) && UniqueNames(e[1..])
    ensures forall x | x in e[1..] :: x.0 > e[0].0 && x.1 != e[0].1
  {
    var t := e[1..];
    forall i, j | 0 <= i < j < |t| ensures t[i].0 < t[j].0 && t[i].1 != t[j].1 {
      assert t[i] == e[i + 1] && t[j] == e[j + 1];
    }
    forall x | x in t ensures x.0 > e[0].0 && x.1 != e[0].1 {
      var j :| 0 <= j < |t| && t[j] == x;
      assert e[j + 1] == x;
    }
  }

  /**
    The loop step is right: searching for `name` and unsetting it, in a list
    whose names are unique, is the same as adding `name` to the hidden ones.
    Because names are unique, removing the first match removes every match.
   */
  lemma {:induction false} HideStep(e: seq<(nat, string)>, hidden: seq<string>, name: string)
    requires Ascending(e) && UniqueNames(e)
    ensures Hide(Without(e, hidden), name) == Without(e, hidden + [name])
  {
    if e != [] {
      var x, t := e[0], e[1..];
      TailApart(e);
      HideStep(t, hidden, name);
      var w := Without(t, hidden);
      WithoutMembers(t, hidden);
      if x.1 in hidden {
        assert Without(e, hidden) == w;
      } else if x.1 == name {
        assert Without(e, hidden) == [x] + w;
        assert SearchKey([x] + w, name) == Some(x.0);
        UnsetAbsent(w, x.0);
        assert Unset([x] + w, x.0) == w;
        WithoutAbsent(t, hidden, name);
      } else {
        assert Without(e, hidden) == [x] + w;
        assert ([x] + w)[1..] == w;
        match SearchKey(w, name)
        case None =>
        case Some(key) =>
          assert (key, name) in w;
          assert Unset([x] + w, key) == [x] + Unset(w, key);
      }
    }
  }

  /**
    What `getModelAttributes` returns for attribute names `names`: the entry
    `(i, n)` is there exactly when `n` is the `i`-th name and is not hidden,
    and the entries stay in their original order.
   */
  lemma VisibleAttributes(a: AttributeArray, hidden: seq<string>)
    ensures var r := Without(KeyList(a), hidden);
      && (forall i: nat, n: string :: (i, n) in r <==> i < |a| && a[i].0 == n && n !in hidden)
      && Ascending(r)
  {
    var e := KeyList(a);
    WithoutMembers(e, hidden);
    WithoutAscending(e, hidden);
  }
}
