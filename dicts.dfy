/**
 * Insertion-ordered dictionaries (Python's dict and OrderedDict) as
 * sequences of key/value pairs whose keys are distinct.
 */
module Dicts {
  import opened Wrappers

  type Dict<V> = seq<(string, V)>

  function Keys<V>(d: Dict<V>): (ks: seq<string>)
    ensures |ks| == |d|
    ensures forall i {:trigger ks[i]} :: 0 <= i < |d| ==> ks[i] == d[i].0
  {
    if |d| == 0 then [] else [d[0].0] + Keys(d[1..])
  }

  /** No key occurs twice. */
  ghost predicate UniqueKeys<V>(d: Dict<V>) {
    forall i, j :: 0 <= i < |d| && 0 <= j < |d| && i != j ==> d[i].0 != d[j].0
  }

  /** `d[k]` when `k in d`. */
  function Lookup<V>(d: Dict<V>, k: string): (r: Option<V>)
    ensures r.Some? <==> k in Keys(d)
    ensures r.Some? ==> (k, r.value) in d
  {
    if |d| == 0 then None
    else if d[0].0 == k then Some(d[0].1)
    else Lookup(d[1..], k)
  }

  /**
   * `d[k] = v`: an existing key keeps its position and takes the new value,
   * a new key is appended at the end.
   */
  function Set<V>(d: Dict<V>, k: string, v: V): (r: Dict<V>)
    ensures Lookup(r, k) == Some(v)
    ensures forall k' :: k' != k ==> Lookup(r, k') == Lookup(d, k')
    ensures k in Keys(d) ==> Keys(r) == Keys(d)
    ensures k !in Keys(d) ==> Keys(r) == Keys(d) + [k]
  {
    if |d| == 0 then [(k, v)]
    else if d[0].0 == k then [(k, v)] + d[1..]
    else
      var rest := Set(d[1..], k, v);
      SetConsLookup(d[0], d[1..], k, v, rest);
      SetConsKeys(d[0], d[1..], k, rest);
      [d[0]] + rest
  }

  /** One step of `Set` past a pair with another key: what the lookups give. */
  lemma SetConsLookup<V>(x: (string, V), tail: Dict<V>, k: string, v: V, rest: Dict<V>)
    requires x.0 != k
    requires Lookup(rest, k) == Some(v)
    requires forall k' :: k' != k ==> Lookup(rest, k') == Lookup(tail, k')
    ensures Lookup([x] + rest, k) == Some(v)
    ensures forall k' :: k' != k ==> Lookup([x] + rest, k') == Lookup([x] + tail, k')
  {
    assert ([x] + rest)[1..] == rest && ([x] + tail)[1..] == tail;
  }

  /** One step of `Set` past a pair with another key: the keys, in order. */
  lemma SetConsKeys<V>(x: (string, V), tail: Dict<V>, k: string, rest: Dict<V>)
    requires x.0 != k
    requires k in Keys(tail) ==> Keys(rest) == Keys(tail)
    requires k !in Keys(tail) ==> Keys(rest) == Keys(tail) + [k]
    ensures k in Keys([x] + tail) ==> Keys([x] + rest) == Keys([x] + tail)
    ensures k !in Keys([x] + tail) ==> Keys([x] + rest) == Keys([x] + tail) + [k]
  {
    assert ([x] + rest)[1..] == rest && ([x] + tail)[1..] == tail;
    assert Keys([x] + rest) == [x.0] + Keys(rest);
    assert Keys([x] + tail) == [x.0] + Keys(tail);
  }

  /** Assigning a key never creates a duplicate key. */
  lemma {:induction false} SetKeepsUniqueKeys<V>(d: Dict<V>, k: string, v: V)
    requires UniqueKeys(d)
    ensures UniqueKeys(Set(d, k, v))
  {
    if |d| > 0 && d[0].0 != k {
      UniqueParts(d);
      SetKeepsUniqueKeys(d[1..], k, v);
      UniqueCons(d[0], Set(d[1..], k, v));
    } else if |d| > 0 {
      UniqueParts(d);
      UniqueCons((k, v), d[1..]);
    }
  }

  /** `del d[k]` for a present key; a missing key leaves `d` as it is. */
  function Delete<V>(d: Dict<V>, k: string): (r: Dict<V>)
    ensures Lookup(r, k) == None
    ensures forall x :: x in Keys(r) ==> x in Keys(d)
    ensures UniqueKeys(d) ==> forall k' :: k' != k ==> Lookup(r, k') == Lookup(d, k')
    ensures k !in Keys(d) ==> r == d
  {
    if |d| == 0 then []
    else if d[0].0 == k then
      var rest := Delete(d[1..], k);
      DeleteSkips(d, k, rest);
      rest
    else
      var rest := Delete(d[1..], k);
      DeleteKeeps(d, k, rest);
      [d[0]] + rest
  }

  /** One step of `Delete` over a first pair with the deleted key. */
  lemma DeleteSkips<V>(d: Dict<V>, k: string, rest: Dict<V>)
    requires |d| > 0 && d[0].0 == k
    requires forall x :: x in Keys(rest) ==> x in Keys(d[1..])
    requires UniqueKeys(d[1..]) ==> forall k' :: k' != k ==> Lookup(rest, k') == Lookup(d[1..], k')
    ensures forall x :: x in Keys(rest) ==> x in Keys(d)
    ensures UniqueKeys(d) ==> forall k' :: k' != k ==> Lookup(rest, k') == Lookup(d, k')
  {
    assert Keys(d) == [d[0].0] + Keys(d[1..]);
    if UniqueKeys(d) {
      UniqueParts(d);
    }
  }

  /** One step of `Delete` over a first pair with another key. */
  lemma DeleteKeeps<V>(d: Dict<V>, k: string, rest: Dict<V>)
    requires |d| > 0 && d[0].0 != k
    requires Lookup(rest, k) == None
    requires forall x :: x in Keys(rest) ==> x in Keys(d[1..])
    requires UniqueKeys(d[1..]) ==> forall k' :: k' != k ==> Lookup(rest, k') == Lookup(d[1..], k')
    requires k !in Keys(d[1..]) ==> rest == d[1..]
    ensures Lookup([d[0]] + rest, k) == None
    ensures forall x :: x in Keys([d[0]] + rest) ==> x in Keys(d)
    ensures UniqueKeys(d) ==> forall k' :: k' != k ==> Lookup([d[0]] + rest, k') == Lookup(d, k')
    ensures k !in Keys(d) ==> [d[0]] + rest == d
  {
    var r := [d[0]] + rest;
    assert r[1..] == rest;
    assert Keys(d) == [d[0].0] + Keys(d[1..]);
    assert Keys(r) == [d[0].0] + Keys(rest);
    assert d == [d[0]] + d[1..];
    if UniqueKeys(d) {
      UniqueParts(d);
    }
  }

  /** Assigning a key that is not there yet appends the pair. */
  lemma {:induction false} SetNewKeyAppends<V>(d: Dict<V>, k: string, v: V)
    requires k !in Keys(d)
    ensures Set(d, k, v) == d + [(k, v)]
  {
    if |d| > 0 {
      KeyNotInTail(d, k);
      SetNewKeyAppends(d[1..], k, v);
      assert Set(d, k, v) == [d[0]] + Set(d[1..], k, v);
      assert d == [d[0]] + d[1..];
    }
  }

  /** Deleting the key of a pair appended last, when it occurs nowhere before, removes that pair. */
  lemma {:induction false} DeleteLast<V>(d: Dict<V>, k: string, v: V)
    requires k !in Keys(d)
    ensures Delete(d + [(k, v)], k) == d
  {
    if |d| == 0 {
      assert Delete([(k, v)], k) == Delete([], k);
    } else {
      var e := d + [(k, v)];
      assert e[0] == d[0] && d[0].0 != k;
      assert e[1..] == d[1..] + [(k, v)];
      assert Keys(d) == [d[0].0] + Keys(d[1..]);
      DeleteLast(d[1..], k, v);
      assert Delete(e, k) == [d[0]] + Delete(e[1..], k);
      assert d == [d[0]] + d[1..];
    }
  }

  /** Deleting a key that occurs once, in the middle, removes just that pair. */
  lemma DeleteMiddle<V>(a: Dict<V>, k: string, v: V, b: Dict<V>)
    requires k !in Keys(a) && k !in Keys(b)
    ensures Delete(a + [(k, v)] + b, k) == a + b
  {
    DeleteBehind(a, [(k, v)] + b, k);
    DeleteHead((k, v), b);
    AppendAssoc(a, [(k, v)], b);
  }

  /** Deleting a key the first part lacks only deletes in the second. */
  lemma {:induction false} DeleteBehind<V>(a: Dict<V>, c: Dict<V>, k: string)
    requires k !in Keys(a)
    ensures Delete(a + c, k) == a + Delete(c, k)
  {
    if |a| > 0 {
      KeyNotInTail(a, k);
      DeleteBehind(a[1..], c, k);
      SplitHead(a, c);
      DeleteOther(a[0], a[1..] + c, k);
      SplitHead(a, Delete(c, k));
    } else {
      assert a + c == c && a + Delete(c, k) == Delete(c, k);
    }
  }

  lemma SplitHead<V>(a: Dict<V>, b: Dict<V>)
    requires |a| > 0
    ensures a + b == [a[0]] + (a[1..] + b)
  {
    assert a == [a[0]] + a[1..];
  }

  lemma KeyNotInTail<V>(a: Dict<V>, k: string)
    requires |a| > 0 && k !in Keys(a)
    ensures a[0].0 != k && k !in Keys(a[1..])
  {
    assert Keys(a)[0] == a[0].0;
    forall i | 0 <= i < |a| - 1 ensures Keys(a[1..])[i] != k {
      assert Keys(a[1..])[i] == Keys(a)[i + 1];
    }
  }

  lemma DeleteHead<V>(p: (string, V), rest: Dict<V>)
    requires p.0 !in Keys(rest)
    ensures Delete([p] + rest, p.0) == rest
  {
    assert ([p] + rest)[1..] == rest;
  }

  lemma DeleteOther<V>(p: (string, V), rest: Dict<V>, k: string)
    requires p.0 != k
    ensures Delete([p] + rest, k) == [p] + Delete(rest, k)
  {
    assert ([p] + rest)[1..] == rest;
  }

  /** The keys of two dictionaries laid end to end. */
  lemma KeysConcat<V>(a: Dict<V>, b: Dict<V>)
    ensures Keys(a + b) == Keys(a) + Keys(b)
  {
    var l, r := Keys(a + b), Keys(a) + Keys(b);
    forall i | 0 <= i < |l| ensures l[i] == r[i] {
      if i < |a| {
        assert (a + b)[i] == a[i];
      } else {
        assert (a + b)[i] == b[i - |a|];
      }
    }
  }

  /** Laying three dictionaries end to end does not depend on grouping. */
  lemma AppendAssoc<V>(a: Dict<V>, b: Dict<V>, c: Dict<V>)
    ensures a + b + c == a + (b + c)
  {
  }

  /** A key absent from two dictionaries is absent from both laid end to end. */
  lemma NotInConcat<V>(a: Dict<V>, b: Dict<V>, k: string)
    requires k !in Keys(a) && k !in Keys(b)
    ensures k !in Keys(a + b)
  {
    KeysConcat(a, b);
  }

  /** Looking a key up in two dictionaries laid end to end: the first one that has it answers. */
  lemma {:induction false} LookupConcat<V>(a: Dict<V>, b: Dict<V>, x: string)
    ensures Lookup(a + b, x) == if Lookup(a, x).Some? then Lookup(a, x) else Lookup(b, x)
  {
    if |a| > 0 {
      SplitHead(a, b);
      assert ([a[0]] + (a[1..] + b))[1..] == a[1..] + b;
      LookupConcat(a[1..], b, x);
    } else {
      assert a + b == b;
    }
  }

  /** Looking a key up after appending a pair. */
  lemma {:induction false} LookupSnoc<V>(d: Dict<V>, k: string, v: V, x: string)
    ensures Lookup(d + [(k, v)], x) == if x in Keys(d) then Lookup(d, x) else if x == k then Some(v) else None
  {
    if |d| > 0 {
      LookupSnoc(d[1..], k, v, x);
      assert (d + [(k, v)])[1..] == d[1..] + [(k, v)];
    }
  }

  /** `dict(d)` and a `for k in d: e[k] = d[k]` loop: assigning every pair in order. */
  function Copied<V>(d: Dict<V>): Dict<V> {
    if |d| == 0 then [] else Set(Copied(d[..|d| - 1]), d[|d| - 1].0, d[|d| - 1].1)
  }

  /** The first and the last key of a dictionary occur nowhere else. */
  lemma UniqueParts<V>(d: Dict<V>)
    requires UniqueKeys(d) && |d| > 0
    ensures UniqueKeys(d[1..]) && d[0].0 !in Keys(d[1..])
    ensures UniqueKeys(d[..|d| - 1]) && d[|d| - 1].0 !in Keys(d[..|d| - 1])
  {
    var init, tail := d[..|d| - 1], d[1..];
    forall i | 0 <= i < |tail| ensures Keys(tail)[i] != d[0].0 {
      assert Keys(tail)[i] == d[i + 1].0;
    }
    forall i | 0 <= i < |init| ensures Keys(init)[i] != d[|d| - 1].0 {
      assert Keys(init)[i] == d[i].0;
    }
  }

  lemma UniqueCons<V>(x: (string, V), rest: Dict<V>)
    requires x.0 !in Keys(rest) && UniqueKeys(rest)
    ensures UniqueKeys([x] + rest)
  {
    var d := [x] + rest;
    forall i, j | 0 <= i < |d| && 0 <= j < |d| && i != j ensures d[i].0 != d[j].0 {
      if i == 0 {
        assert d[j].0 == Keys(rest)[j - 1];
      } else if j == 0 {
        assert d[i].0 == Keys(rest)[i - 1];
      } else {
        assert d[i] == rest[i - 1] && d[j] == rest[j - 1];
      }
    }
  }

  /** Deleting a key never creates a duplicate key. */
  lemma {:induction false} DeleteKeepsUniqueKeys<V>(d: Dict<V>, k: string)
    requires UniqueKeys(d)
    ensures UniqueKeys(Delete(d, k))
  {
    if |d| > 0 {
      UniqueParts(d);
      DeleteKeepsUniqueKeys(d[1..], k);
      if d[0].0 != k {
        UniqueCons(d[0], Delete(d[1..], k));
      }
    }
  }

  /** Copying a dictionary key for key gives the same pairs in the same order. */
  lemma {:induction false} CopiedIsIdentity<V>(d: Dict<V>)
    requires UniqueKeys(d)
    ensures Copied(d) == d
  {
    if |d| > 0 {
      var init := d[..|d| - 1];
      UniqueParts(d);
      CopiedIsIdentity(init);
      SetNewKeyAppends(init, d[|d| - 1].0, d[|d| - 1].1);
      assert init + [d[|d| - 1]] == d;
    }
  }
}
