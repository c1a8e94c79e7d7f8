/** Orders and sorting as Python's `sorted`/`list.sort` provide them:
    strings compare lexicographically by code point, and the sort is
    stable with an optional `reverse=True` that keeps equal keys in their
    original order. */
module Ordering {

  /** Python's `a <= b` on `str`: the common prefix decides, a proper prefix comes first. */
  predicate LexLeq(a: string, b: string)
    decreases |a|
  {
    if |a| == 0 then true
    else if |b| == 0 then false
    else if a[0] != b[0] then a[0] < b[0]
    else LexLeq(a[1..], b[1..])
  }

  /** Python's `a < b` on `str`. */
  predicate LexLess(a: string, b: string) {
    LexLeq(a, b) && a != b
  }

  lemma {:induction false} LexLeqRefl(a: string)
    ensures LexLeq(a, a)
    decreases |a|
  {
    if |a| != 0 {
      LexLeqRefl(a[1..]);
    }
  }

  lemma {:induction false} LexLeqTotal(a: string, b: string)
    ensures LexLeq(a, b) || LexLeq(b, a)
    decreases |a|
  {
    if |a| != 0 && |b| != 0 && a[0] == b[0] {
      LexLeqTotal(a[1..], b[1..]);
    }
  }

  lemma {:induction false} LexLeqTrans(a: string, b: string, c: string)
    requires LexLeq(a, b) && LexLeq(b, c)
    ensures LexLeq(a, c)
    decreases |a|
  {
    if |a| != 0 && |b| != 0 && |c| != 0 && a[0] == b[0] == c[0] {
      LexLeqTrans(a[1..], b[1..], c[1..]);
    }
  }

  lemma {:induction false} LexLeqAntisym(a: string, b: string)
    requires LexLeq(a, b) && LexLeq(b, a)
    ensures a == b
    decreases |a|
  {
    if |a| != 0 {
      LexLeqAntisym(a[1..], b[1..]);
      assert a == [a[0]] + a[1..] && b == [b[0]] + b[1..];
    }
  }

  /** Consecutive strict order in a list extends to any two positions. */
  lemma {:induction false} LexLessChain(a: seq<string>, i: nat, j: nat)
    requires i < j < |a|
    requires forall k :: 0 <= k < |a| - 1 ==> LexLess(a[k], a[k + 1])
    ensures LexLess(a[i], a[j])
    decreases j - i
  {
    if j > i + 1 {
      LexLessChain(a, i + 1, j);
      LexLeqTrans(a[i], a[i + 1], a[j]);
      if a[i] == a[j] {
        LexLeqAntisym(a[i], a[i + 1]);
      }
    }
  }

  /** A sort key: the sources sort by an integer field or by a string field. */
  datatype Key = IntKey(n: int) | TextKey(t: string)

  /** The key order. Keys of one sort are all of one kind; a mixed pair,
      which Python would refuse, is ordered integers first so the order stays total. */
  predicate KeyLeq(x: Key, y: Key) {
    match (x, y)
    case (IntKey(m), IntKey(n)) => m <= n
    case (TextKey(s), TextKey(t)) => LexLeq(s, t)
    case (IntKey(_), TextKey(_)) => true
    case (TextKey(_), IntKey(_)) => false
  }

  /** `x` may stand before `y` in a list sorted ascending, or descending when `desc`. */
  predicate Precedes(x: Key, y: Key, desc: bool) {
    if desc then KeyLeq(y, x) else KeyLeq(x, y)
  }

  lemma PrecedesTotal(x: Key, y: Key, desc: bool)
    ensures Precedes(x, y, desc) || Precedes(y, x, desc)
  {
    if x.TextKey? && y.TextKey? {
      LexLeqTotal(x.t, y.t);
    }
  }

  lemma PrecedesTrans(x: Key, y: Key, z: Key, desc: bool)
    requires Precedes(x, y, desc) && Precedes(y, z, desc)
    ensures Precedes(x, z, desc)
  {
    if x.TextKey? && y.TextKey? && z.TextKey? {
      if desc {
        LexLeqTrans(z.t, y.t, x.t);
      } else {
        LexLeqTrans(x.t, y.t, z.t);
      }
    }
  }

  /** Every earlier element may precede every later one. */
  ghost predicate SortedBy<T>(s: seq<T>, key: T -> Key, desc: bool) {
    forall i, j :: 0 <= i < j < |s| ==> Precedes(key(s[i]), key(s[j]), desc)
  }

  /** Inserts `x` before the first element it may precede; equal keys already
      in `s` come from later positions, so `x` stays ahead of them (stability). */
  function Insert<T(==)>(x: T, s: seq<T>, key: T -> Key, desc: bool): (r: seq<T>)
    requires SortedBy(s, key, desc)
    ensures multiset(r) == multiset(s) + multiset{x}
    ensures SortedBy(r, key, desc)
    decreases |s|
  {
    if s == [] then [x]
    else if Precedes(key(x), key(s[0]), desc) then
      PrecedesAll(x, s, key, desc);
      [x] + s
    else
      PrecedesTotal(key(x), key(s[0]), desc);
      var tail := Insert(x, s[1..], key, desc);
      assert s == [s[0]] + s[1..];
      HeadPrecedesAll(s[0], tail, x, s[1..], key, desc);
      [s[0]] + tail
  }

  /** If `x` may precede the head of a sorted list, it may precede all of it. */
  lemma PrecedesAll<T>(x: T, s: seq<T>, key: T -> Key, desc: bool)
    requires s != [] && SortedBy(s, key, desc) && Precedes(key(x), key(s[0]), desc)
    ensures SortedBy([x] + s, key, desc)
  {
    forall j | 0 < j < |s|
      ensures Precedes(key(x), key(s[j]), desc)
    {
      PrecedesTrans(key(x), key(s[0]), key(s[j]), desc);
    }
  }

  /** A head that may precede every element of `rest` and also `x` may precede every
      element of any arrangement of `rest` plus `x`. */
  lemma HeadPrecedesAll<T>(h: T, t: seq<T>, x: T, rest: seq<T>, key: T -> Key, desc: bool)
    requires SortedBy([h] + rest, key, desc) && SortedBy(t, key, desc)
    requires Precedes(key(h), key(x), desc)
    requires multiset(t) == multiset(rest) + multiset{x}
    ensures SortedBy([h] + t, key, desc)
  {
    forall j | 0 <= j < |t|
      ensures Precedes(key(h), key(t[j]), desc)
    {
      assert t[j] in multiset(t);
      if t[j] != x {
        assert t[j] in multiset(rest);
        var k :| 0 <= k < |rest| && rest[k] == t[j];
        assert ([h] + rest)[0] == h && ([h] + rest)[k + 1] == rest[k];
        assert Precedes(key(([h] + rest)[0]), key(([h] + rest)[k + 1]), desc);
      }
    }
    var r := [h] + t;
    forall i, j | 0 <= i < j < |r|
      ensures Precedes(key(r[i]), key(r[j]), desc)
    {
      if i > 0 {
        assert r[i] == t[i - 1] && r[j] == t[j - 1];
      } else {
        assert r[j] == t[j - 1];
      }
    }
  }

  /** Python's stable `sorted(s, key=key, reverse=desc)`. */
  function SortBy<T(==)>(s: seq<T>, key: T -> Key, desc: bool): (r: seq<T>)
    ensures multiset(r) == multiset(s)
    ensures SortedBy(r, key, desc)
    decreases |s|
  {
    if s == [] then []
    else
      assert s == [s[0]] + s[1..];
      Insert(s[0], SortBy(s[1..], key, desc), key, desc)
  }

  /** The elements of `s` whose key is `k`, in their order in `s`. */
  function WithKey<T>(s: seq<T>, key: T -> Key, k: Key): (r: seq<T>)
    ensures |r| <= |s|
    ensures forall i :: 0 <= i < |r| ==> key(r[i]) == k
  {
    if s == [] then []
    else (if key(s[0]) == k then [s[0]] else []) + WithKey(s[1..], key, k)
  }

  lemma WithKeyCons<T>(a: T, t: seq<T>, key: T -> Key, k: Key)
    ensures WithKey([a] + t, key, k) == (if key(a) == k then [a] else []) + WithKey(t, key, k)
  {
    assert ([a] + t)[0] == a && ([a] + t)[1..] == t;
  }

  lemma PrecedesRefl(x: Key, desc: bool)
    ensures Precedes(x, x, desc)
  {
    if x.TextKey? {
      LexLeqRefl(x.t);
    }
  }

  /** Inserting keeps the order among equal keys: `x` enters ahead of the
      elements that share its key, and the other keys' runs are untouched. */
  lemma {:induction false} InsertWithKey<T>(x: T, s: seq<T>, key: T -> Key, desc: bool, k: Key)
    requires SortedBy(s, key, desc)
    ensures WithKey(Insert(x, s, key, desc), key, k)
            == (if key(x) == k then [x] else []) + WithKey(s, key, k)
    decreases |s|
  {
    if s == [] {
      WithKeyCons(x, [], key, k);
    } else if Precedes(key(x), key(s[0]), desc) {
      WithKeyCons(x, s, key, k);
    } else {
      PrecedesRefl(key(x), desc);
      InsertWithKey(x, s[1..], key, desc, k);
      InsertUnfold(x, s, key, desc);
      ConsPast(x, s[0], Insert(x, s[1..], key, desc), s[1..], key, k);
      assert s == [s[0]] + s[1..];
    }
  }

  lemma InsertUnfold<T>(x: T, s: seq<T>, key: T -> Key, desc: bool)
    requires s != [] && SortedBy(s, key, desc) && !Precedes(key(x), key(s[0]), desc)
    ensures SortedBy(s[1..], key, desc)
    ensures Insert(x, s, key, desc) == [s[0]] + Insert(x, s[1..], key, desc)
  {
  }

  /** The step of `InsertWithKey` where `x` goes past the head `h` of the list:
      the run of `x`'s key gains `x`, the run of `h`'s key keeps `h` in front. */
  lemma ConsPast<T>(x: T, h: T, t: seq<T>, rest: seq<T>, key: T -> Key, k: Key)
    requires key(x) != key(h)
    requires WithKey(t, key, k) == (if key(x) == k then [x] else []) + WithKey(rest, key, k)
    ensures WithKey([h] + t, key, k) == (if key(x) == k then [x] else []) + WithKey([h] + rest, key, k)
  {
    WithKeyCons(h, t, key, k);
    WithKeyCons(h, rest, key, k);
    if key(x) == k {
      assert WithKey([h] + t, key, k) == WithKey(t, key, k);
    } else {
      assert WithKey(t, key, k) == WithKey(rest, key, k);
    }
  }

  /** `SortBy` is stable: for every key, the elements carrying it appear in the
      result in the same order as in the input, with `reverse=True` as well. */
  lemma {:induction false} SortByStable<T>(s: seq<T>, key: T -> Key, desc: bool, k: Key)
    ensures WithKey(SortBy(s, key, desc), key, k) == WithKey(s, key, k)
    decreases |s|
  {
    if s != [] {
      SortByStable(s[1..], key, desc, k);
      InsertWithKey(s[0], SortBy(s[1..], key, desc), key, desc, k);
    }
  }

  lemma SortByLength<T>(s: seq<T>, key: T -> Key, desc: bool)
    ensures |SortBy(s, key, desc)| == |s|
  {
    var r := SortBy(s, key, desc);
    assert |multiset(r)| == |multiset(s)|;
  }
}
