/** Ordering by tuple keys, the way `sorted(..., key=...)` and `min(...)` order, and the fact
    that distinct keys leave only one sorted arrangement. */
module Sorting {
  import opened Common

  datatype Part = Text(text: string) | Number(number: int)

  type Key = seq<Part>

  predicate PartBefore(a: Part, b: Part) {
    match (a, b)
    case (Number(m), Number(n)) => m < n
    case (Number(_), Text(_)) => true
    case (Text(_), Number(_)) => false
    case (Text(s), Text(t)) => Before(s, t)
  }

  /** Strict lexicographic order on tuples. */
  predicate KeyBefore(a: Key, b: Key) {
    if b == [] then false
    else if a == [] then true
    else PartBefore(a[0], b[0]) || (a[0] == b[0] && KeyBefore(a[1..], b[1..]))
  }

  lemma PartOrder(a: Part, b: Part, c: Part)
    ensures PartBefore(a, b) && PartBefore(b, c) ==> PartBefore(a, c)
    ensures PartBefore(a, b) || PartBefore(b, a) || a == b
    ensures !PartBefore(a, a)
  {
    if a.Text? {
      BeforeIrreflexive(a.text);
      if b.Text? {
        BeforeTotal(a.text, b.text);
        if c.Text? && Before(a.text, b.text) && Before(b.text, c.text) {
          BeforeTransitive(a.text, b.text, c.text);
        }
      }
    }
  }

  lemma {:induction false} KeyTransitive(a: Key, b: Key, c: Key)
    requires KeyBefore(a, b) && KeyBefore(b, c)
    ensures KeyBefore(a, c)
  {
    if a != [] {
      PartOrder(a[0], b[0], c[0]);
      if a[0] == b[0] == c[0] {
        KeyTransitive(a[1..], b[1..], c[1..]);
      }
    }
  }

  lemma {:induction false} KeyTotal(a: Key, b: Key)
    ensures KeyBefore(a, b) || KeyBefore(b, a) || a == b
  {
    if a != [] && b != [] {
      PartOrder(a[0], b[0], b[0]);
      if a[0] == b[0] {
        KeyTotal(a[1..], b[1..]);
        if a[1..] == b[1..] {
          assert a == [a[0]] + a[1..] && b == [b[0]] + b[1..];
        }
      }
    }
  }

  lemma {:induction false} KeyIrreflexive(a: Key)
    ensures !KeyBefore(a, a)
  {
    if a != [] {
      PartOrder(a[0], a[0], a[0]);
      KeyIrreflexive(a[1..]);
    }
  }

  /** `a` does not come after `b`; the negated form is transitive too. */
  lemma KeyNotAfterTransitive(a: Key, b: Key, c: Key)
    requires !KeyBefore(b, a) && !KeyBefore(c, b)
    ensures !KeyBefore(c, a)
  {
    if KeyBefore(c, a) {
      KeyTotal(a, b);
      KeyTotal(b, c);
      if a != b && b != c {
        KeyTransitive(a, b, c);
        KeyTransitive(c, a, c);
        KeyIrreflexive(c);
      }
    }
  }

  ghost predicate Sorted<T(!new)>(key: T -> Key, s: seq<T>) {
    forall i, j :: 0 <= i < j < |s| ==> !KeyBefore(key(s[j]), key(s[i]))
  }

  /** Elements of `s` with equal keys are equal. */
  ghost predicate KeyIdentifies<T(!new)>(key: T -> Key, s: seq<T>) {
    forall x, y :: x in s && y in s && key(x) == key(y) ==> x == y
  }

  /** Inserts after every element that does not come later, so equal keys keep their order. */
  function Insert<T(!new)>(key: T -> Key, x: T, s: seq<T>): (r: seq<T>)
    ensures multiset(r) == multiset(s) + multiset{x}
    ensures Sorted(key, s) ==> Sorted(key, r)
  {
    if s == [] then [x]
    else
      var n := |s| - 1;
      assert s == s[..n] + [s[n]];
      if KeyBefore(key(x), key(s[n])) then
        var front := Insert(key, x, s[..n]);
        InsertKeepsSorted(key, x, s, front);
        front + [s[n]]
      else
        AppendKeepsSorted(key, x, s);
        s + [x]
  }

  lemma InsertKeepsSorted<T(!new)>(key: T -> Key, x: T, s: seq<T>, front: seq<T>)
    requires |s| > 0 && KeyBefore(key(x), key(s[|s| - 1]))
    requires multiset(front) == multiset(s[..|s| - 1]) + multiset{x}
    requires Sorted(key, s) ==> Sorted(key, front)
    ensures Sorted(key, s) ==> Sorted(key, front + [s[|s| - 1]])
  {
    var n := |s| - 1;
    if Sorted(key, s) {
      forall i | 0 <= i < |front| ensures !KeyBefore(key(s[n]), key(front[i])) {
        assert front[i] in multiset(front);
        if front[i] in multiset(s[..n]) {
          assert front[i] in s[..n];
          var j :| 0 <= j < n && s[j] == front[i];
        } else {
          assert front[i] == x;
          if KeyBefore(key(s[n]), key(x)) {
            KeyTransitive(key(x), key(s[n]), key(x));
            KeyIrreflexive(key(x));
          }
        }
      }
    }
  }

  lemma AppendKeepsSorted<T(!new)>(key: T -> Key, x: T, s: seq<T>)
    requires |s| > 0 && !KeyBefore(key(x), key(s[|s| - 1]))
    ensures Sorted(key, s) ==> Sorted(key, s + [x])
  {
    if Sorted(key, s) {
      forall i | 0 <= i < |s| ensures !KeyBefore(key(x), key(s[i])) {
        if i < |s| - 1 {
          KeyNotAfterTransitive(key(s[i]), key(s[|s| - 1]), key(x));
        }
      }
    }
  }

  /** Stable sort by key. */
  function SortBy<T(!new)>(key: T -> Key, s: seq<T>): (r: seq<T>)
    ensures multiset(r) == multiset(s)
    ensures Sorted(key, r)
  {
    if s == [] then []
    else
      assert s == s[..|s| - 1] + [s[|s| - 1]];
      Insert(key, s[|s| - 1], SortBy(key, s[..|s| - 1]))
  }

  /** The elements of `s` with this key, in order. */
  function WithKey<T(!new)>(key: T -> Key, s: seq<T>, k: Key): seq<T> {
    if s == [] then []
    else WithKey(key, s[..|s| - 1], k) + if key(s[|s| - 1]) == k then [s[|s| - 1]] else []
  }

  lemma WithKeyNext<T(!new)>(key: T -> Key, s: seq<T>, x: T, k: Key)
    ensures WithKey(key, s + [x], k) == WithKey(key, s, k) + if key(x) == k then [x] else []
  {
    assert (s + [x])[..|s|] == s;
  }

  lemma {:induction false} InsertStable<T(!new)>(key: T -> Key, x: T, s: seq<T>, k: Key)
    ensures WithKey(key, Insert(key, x, s), k) == WithKey(key, s, k) + if key(x) == k then [x] else []
  {
    if s == [] || !KeyBefore(key(x), key(s[|s| - 1])) {
      assert Insert(key, x, s) == s + [x];
      WithKeyNext(key, s, x, k);
    } else {
      var front, last := s[..|s| - 1], s[|s| - 1];
      assert Insert(key, x, s) == Insert(key, x, front) + [last];
      InsertStable(key, x, front, k);
      WithKeyNext(key, Insert(key, x, front), last, k);
      KeyIrreflexive(key(x));
    }
  }

  /** Sorting leaves elements with equal keys in the order they came in. */
  lemma {:induction false} SortStable<T(!new)>(key: T -> Key, s: seq<T>, k: Key)
    ensures WithKey(key, SortBy(key, s), k) == WithKey(key, s, k)
  {
    if s != [] {
      SortStable(key, s[..|s| - 1], k);
      InsertStable(key, s[|s| - 1], SortBy(key, s[..|s| - 1]), k);
    }
  }

  /** At the first place where two tuples differ, the first has ended or has the smaller part. */
  lemma {:induction false} KeyMeaning(a: Key, b: Key)
    ensures KeyBefore(a, b) <==>
            exists i :: 0 <= i <= |a| && i < |b| && a[..i] == b[..i] && (i == |a| || PartBefore(a[i], b[i]))
  {
    if a != [] && b != [] && a[0] == b[0] {
      PartOrder(a[0], a[0], a[0]);
      KeyMeaning(a[1..], b[1..]);
      forall i | 0 <= i < |a| && i < |b| ensures a[1..][..i] == b[1..][..i] <==> a[..i + 1] == b[..i + 1] {
        assert a[..i + 1] == [a[0]] + a[1..][..i] && b[..i + 1] == [b[0]] + b[1..][..i];
      }
      if i :| 0 <= i <= |a| && i < |b| && a[..i] == b[..i] && (i == |a| || PartBefore(a[i], b[i])) {
        assert a[1..][..i - 1] == b[1..][..i - 1];
      }
      if KeyBefore(a[1..], b[1..]) {
        var i :| 0 <= i <= |a| - 1 && i < |b| - 1 && a[1..][..i] == b[1..][..i]
          && (i == |a| - 1 || PartBefore(a[1..][i], b[1..][i]));
        assert a[..i + 1] == b[..i + 1];
      }
    } else if a != [] && b != [] {
      forall i | 0 < i <= |a| && i < |b| ensures a[..i] != b[..i] {
        assert a[..i][0] == a[0] && b[..i][0] == b[0];
      }
      assert a[..0] == b[..0];
    } else if b != [] {
      assert a[..0] == b[..0];
    }
  }

  lemma FirstIsLeast<T(!new)>(key: T -> Key, s: seq<T>, x: T)
    requires Sorted(key, s) && x in s
    ensures !KeyBefore(key(x), key(s[0]))
  {
    var i :| 0 <= i < |s| && s[i] == x;
    KeyIrreflexive(key(x));
  }

  lemma TakeFirst<T>(s: seq<T>)
    requires s != []
    ensures s == [s[0]] + s[1..]
    ensures multiset(s[1..]) == multiset(s) - multiset{s[0]}
    ensures multiset(s) == multiset(s[1..]) + multiset{s[0]}
  {
    assert s == [s[0]] + s[1..];
  }

  /** When keys identify elements there is only one sorted arrangement. */
  lemma {:induction false} SortedUnique<T(!new)>(key: T -> Key, a: seq<T>, b: seq<T>)
    requires multiset(a) == multiset(b)
    requires Sorted(key, a) && Sorted(key, b) && KeyIdentifies(key, a)
    ensures a == b
  {
    if a == [] {
      assert |multiset(b)| == |b|;
    } else {
      assert |multiset(a)| == |a| && |multiset(b)| == |b|;
      assert a[0] in multiset(b) && b[0] in multiset(a);
      FirstIsLeast(key, b, a[0]);
      FirstIsLeast(key, a, b[0]);
      KeyTotal(key(a[0]), key(b[0]));
      TakeFirst(a);
      TakeFirst(b);
      SortedUnique(key, a[1..], b[1..]);
    }
  }

  lemma TakeOut<T>(s: seq<T>, j: nat)
    requires j < |s|
    ensures multiset(s[..j] + s[j + 1..]) == multiset(s) - multiset{s[j]}
    ensures multiset(s) == multiset(s[..j] + s[j + 1..]) + multiset{s[j]}
  {
    assert s == s[..j] + [s[j]] + s[j + 1..];
  }

  lemma TakeOutBoth<T>(a: seq<T>, b: seq<T>, j: nat)
    requires multiset(a) == multiset(b) && a != [] && j < |b| && b[j] == a[0]
    ensures multiset(a[1..]) == multiset(b[..j] + b[j + 1..])
  {
    TakeFirst(a);
    TakeOut(b, j);
  }

  function Map<T, U>(f: T -> U, s: seq<T>): (r: seq<U>)
    ensures |r| == |s| && forall i :: 0 <= i < |s| ==> r[i] == f(s[i])
  {
    seq(|s|, i requires 0 <= i < |s| => f(s[i]))
  }

  lemma MapTakeOut<T, U>(f: T -> U, s: seq<T>, j: nat)
    requires j < |s|
    ensures multiset(Map(f, s)) == multiset(Map(f, s[..j] + s[j + 1..])) + multiset{f(s[j])}
  {
    TakeOut(Map(f, s), j);
    assert Map(f, s)[..j] + Map(f, s)[j + 1..] == Map(f, s[..j] + s[j + 1..]);
  }

  lemma {:induction false} MapPermutes<T, U>(f: T -> U, a: seq<T>, b: seq<T>)
    requires multiset(a) == multiset(b)
    ensures multiset(Map(f, a)) == multiset(Map(f, b))
    decreases |a|
  {
    if a == [] {
      assert |multiset(b)| == |b|;
    } else {
      assert a[0] in multiset(b);
      var j :| 0 <= j < |b| && b[j] == a[0];
      TakeOutBoth(a, b, j);
      MapPermutes(f, a[1..], b[..j] + b[j + 1..]);
      TakeFirst(Map(f, a));
      assert Map(f, a)[1..] == Map(f, a[1..]);
      MapTakeOut(f, b, j);
    }
  }
}
