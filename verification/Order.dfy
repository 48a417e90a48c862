/**
 Lexicographic keys and the stable sort that every comparator of the sources
 reduces to.  A Rust `sort_by(..).then_with(..)` chain is a sort by a key whose
 components are compared left to right; a descending integer component is the
 ascending component of its negation.
 */
module Order {

  datatype Atom = I(n: int) | S(s: string)

  type Key = seq<Atom>

  /** Byte order of UTF-8 strings, which is code-point order. */
  predicate TextLeq(a: string, b: string) {
    if a == [] then true
    else if b == [] then false
    else if a[0] == b[0] then TextLeq(a[1..], b[1..])
    else a[0] < b[0]
  }

  predicate AtomLeq(a: Atom, b: Atom) {
    match (a, b)
    case (I(m), I(n)) => m <= n
    case (S(s), S(t)) => TextLeq(s, t)
    case (I(_), S(_)) => true
    case (S(_), I(_)) => false
  }

  predicate Leq(a: Key, b: Key) {
    if a == [] then true
    else if b == [] then false
    else if a[0] == b[0] then Leq(a[1..], b[1..])
    else AtomLeq(a[0], b[0])
  }

  lemma {:induction false} TextTotal(a: string, b: string)
    ensures TextLeq(a, b) || TextLeq(b, a)
    ensures TextLeq(a, b) && TextLeq(b, a) ==> a == b
  {
    if a != [] && b != [] && a[0] == b[0] {
      TextTotal(a[1..], b[1..]);
      assert a == [a[0]] + a[1..] && b == [b[0]] + b[1..];
    }
  }

  lemma {:induction false} TextTrans(a: string, b: string, c: string)
    requires TextLeq(a, b) && TextLeq(b, c)
    ensures TextLeq(a, c)
  {
    if a != [] && a[0] == b[0] == c[0] {
      TextTrans(a[1..], b[1..], c[1..]);
    }
  }

  lemma AtomTotal(a: Atom, b: Atom)
    ensures AtomLeq(a, b) || AtomLeq(b, a)
    ensures AtomLeq(a, b) && AtomLeq(b, a) ==> a == b
  {
    if a.S? && b.S? { TextTotal(a.s, b.s); }
  }

  lemma AtomTrans(a: Atom, b: Atom, c: Atom)
    requires AtomLeq(a, b) && AtomLeq(b, c)
    ensures AtomLeq(a, c)
  {
    if a.S? && b.S? && c.S? { TextTrans(a.s, b.s, c.s); }
  }

  lemma {:induction false} LeqTotal(a: Key, b: Key)
    ensures Leq(a, b) || Leq(b, a)
    ensures Leq(a, b) && Leq(b, a) ==> a == b
  {
    if a != [] && b != [] {
      if a[0] == b[0] {
        LeqTotal(a[1..], b[1..]);
        assert a == [a[0]] + a[1..] && b == [b[0]] + b[1..];
      } else {
        AtomTotal(a[0], b[0]);
      }
    }
  }

  lemma {:induction false} LeqTrans(a: Key, b: Key, c: Key)
    requires Leq(a, b) && Leq(b, c)
    ensures Leq(a, c)
  {
    if a != [] {
      AtomTotal(a[0], b[0]);
      AtomTotal(b[0], c[0]);
      if a[0] == b[0] && b[0] == c[0] {
        LeqTrans(a[1..], b[1..], c[1..]);
      } else if a[0] != b[0] && b[0] != c[0] {
        AtomTrans(a[0], b[0], c[0]);
      }
    }
  }

  /** One component after the other: the first in which two keys differ decides. */
  lemma LeqCons(a: Atom, b: Atom, s: Key, t: Key)
    ensures Leq([a] + s, [b] + t) <==> if a == b then Leq(s, t) else AtomLeq(a, b)
  {
    assert ([a] + s)[1..] == s && ([b] + t)[1..] == t;
  }

  lemma CommonHead(a: string, b: string, k: nat)
    requires 0 < k <= |a| && k <= |b| && a[..k] == b[..k]
    ensures a[0] == b[0]
  {
    assert a[..k][0] == b[..k][0];
  }

  /** Dictionary order: a text comes before its continuations, and otherwise the first difference decides. */
  lemma {:induction false} TextLeqMeans(a: string, b: string)
    ensures TextLeq(a, b) <==> a <= b || exists k :: 0 <= k < |a| && k < |b| && a[..k] == b[..k] && a[k] < b[k]
  {
    if a != [] && b != [] && a[0] == b[0] {
      TextLeqMeans(a[1..], b[1..]);
      assert a == [a[0]] + a[1..] && b == [b[0]] + b[1..];
      if k :| 0 <= k < |a| && k < |b| && a[..k] == b[..k] && a[k] < b[k] {
        assert a[1..][..k - 1] == a[..k][1..] && b[1..][..k - 1] == b[..k][1..];
        assert a[1..][k - 1] < b[1..][k - 1];
      }
      if k :| 0 <= k < |a[1..]| && k < |b[1..]| && a[1..][..k] == b[1..][..k] && a[1..][k] < b[1..][k] {
        assert a[..k + 1] == [a[0]] + a[1..][..k] && b[..k + 1] == [b[0]] + b[1..][..k];
        assert a[k + 1] < b[k + 1];
      }
    } else if a != [] && b != [] {
      assert a[..0] == b[..0];
      forall k | 0 <= k < |a| && k < |b| && a[..k] == b[..k] ensures k == 0 {
        if k > 0 { CommonHead(a, b, k); }
      }
    }
  }

  // ---------------------------------------------------------------- sorting

  /** A total preorder. */
  ghost predicate Lawful<T(!new)>(leq: (T, T) -> bool) {
    && (forall x, y :: leq(x, y) || leq(y, x))
    && (forall x, y, z :: leq(x, y) && leq(y, z) ==> leq(x, z))
  }

  ghost predicate Below<T>(leq: (T, T) -> bool, x: T, s: seq<T>) {
    forall y :: y in s ==> leq(x, y)
  }

  ghost predicate Sorted<T>(leq: (T, T) -> bool, s: seq<T>) {
    s != [] ==> Below(leq, s[0], s[1..]) && Sorted(leq, s[1..])
  }

  function Insert<T>(leq: (T, T) -> bool, x: T, s: seq<T>): seq<T> {
    if s == [] then [x]
    else if leq(x, s[0]) then [x] + s
    else [s[0]] + Insert(leq, x, s[1..])
  }

  /** `slice::sort_by`: a stable sort. */
  function Sort<T>(leq: (T, T) -> bool, s: seq<T>): seq<T> {
    if s == [] then [] else Insert(leq, s[0], Sort(leq, s[1..]))
  }

  lemma Members<T>(a: seq<T>, b: seq<T>)
    requires multiset(a) == multiset(b)
    ensures |a| == |b|
    ensures forall x :: x in a <==> x in b
  {
    assert |a| == |multiset(a)| && |b| == |multiset(b)|;
    forall x ensures x in a <==> x in b {
      assert x in a <==> x in multiset(a);
      assert x in b <==> x in multiset(b);
    }
  }

  lemma HeadTail<T>(s: seq<T>)
    requires s != []
    ensures s == [s[0]] + s[1..]
    ensures multiset(s) == multiset(s[1..]) + multiset{s[0]}
    ensures multiset(s[1..]) == multiset(s) - multiset{s[0]}
    ensures forall x :: x in s <==> x == s[0] || x in s[1..]
  {
    assert s == [s[0]] + s[1..];
  }

  lemma {:induction false} InsertPermutes<T>(leq: (T, T) -> bool, x: T, s: seq<T>)
    ensures multiset(Insert(leq, x, s)) == multiset(s) + multiset{x}
    ensures forall y :: y in Insert(leq, x, s) <==> y == x || y in s
  {
    if s != [] {
      HeadTail(s);
      InsertPermutes(leq, x, s[1..]);
    }
  }

  lemma {:induction false} InsertSorted<T(!new)>(leq: (T, T) -> bool, x: T, s: seq<T>)
    requires Lawful(leq) && Sorted(leq, s)
    ensures Sorted(leq, Insert(leq, x, s))
  {
    if s != [] {
      HeadTail(s);
      if leq(x, s[0]) {
        assert ([x] + s)[1..] == s;
      } else {
        InsertSorted(leq, x, s[1..]);
        InsertPermutes(leq, x, s[1..]);
        assert Insert(leq, x, s)[1..] == Insert(leq, x, s[1..]);
      }
    }
  }

  lemma {:induction false} SortPermutes<T>(leq: (T, T) -> bool, s: seq<T>)
    ensures multiset(Sort(leq, s)) == multiset(s)
    ensures |Sort(leq, s)| == |s|
    ensures forall x :: x in Sort(leq, s) <==> x in s
  {
    if s != [] {
      SortPermutes(leq, s[1..]);
      InsertPermutes(leq, s[0], Sort(leq, s[1..]));
      HeadTail(s);
    }
    Members(Sort(leq, s), s);
  }

  lemma {:induction false} SortSorted<T(!new)>(leq: (T, T) -> bool, s: seq<T>)
    requires Lawful(leq)
    ensures Sorted(leq, Sort(leq, s))
  {
    if s != [] {
      SortSorted(leq, s[1..]);
      InsertSorted(leq, s[0], Sort(leq, s[1..]));
    }
  }

  /** Elements of `s` that the order cannot tell apart are the same element. */
  ghost predicate Distinguishes<T>(leq: (T, T) -> bool, s: seq<T>) {
    forall x, y :: x in s && y in s && leq(x, y) && leq(y, x) ==> x == y
  }

  lemma {:induction false} SortedUnique<T>(leq: (T, T) -> bool, a: seq<T>, b: seq<T>)
    requires Sorted(leq, a) && Sorted(leq, b)
    requires multiset(a) == multiset(b)
    requires Distinguishes(leq, a)
    ensures a == b
  {
    Members(a, b);
    if a != [] {
      HeadTail(a);
      HeadTail(b);
      assert b[0] in a && a[0] in b;
      SortedUnique(leq, a[1..], b[1..]);
    }
  }

  /** Sorting by an order that distinguishes the elements forgets the input order. */
  lemma SortForgetsOrder<T(!new)>(leq: (T, T) -> bool, a: seq<T>, b: seq<T>)
    requires Lawful(leq)
    requires multiset(a) == multiset(b)
    requires Distinguishes(leq, a)
    ensures Sort(leq, a) == Sort(leq, b)
  {
    SortPermutes(leq, a);
    SortPermutes(leq, b);
    SortSorted(leq, a);
    SortSorted(leq, b);
    SortedUnique(leq, Sort(leq, a), Sort(leq, b));
  }

  /** Inserts behind everything that is not greater. */
  function Place<T>(leq: (T, T) -> bool, x: T, s: seq<T>): seq<T> {
    if s == [] then [x]
    else if leq(s[0], x) then [s[0]] + Place(leq, x, s[1..])
    else [x] + s
  }

  lemma {:induction false} InsertPlace<T(!new)>(leq: (T, T) -> bool, y: T, x: T, s: seq<T>)
    requires Lawful(leq)
    ensures Insert(leq, y, Place(leq, x, s)) == Place(leq, x, Insert(leq, y, s))
  {
    if s != [] {
      assert ([y] + s)[1..] == s && ([x] + s)[1..] == s;
      if leq(s[0], x) && !leq(y, s[0]) {
        InsertPlace(leq, y, x, s[1..]);
        assert Place(leq, x, s)[1..] == Place(leq, x, s[1..]);
        assert Insert(leq, y, s)[1..] == Insert(leq, y, s[1..]);
      }
    }
  }

  /** The sort is stable: an element that comes last is placed behind its equals. */
  lemma {:induction false} SortPlacesLast<T(!new)>(leq: (T, T) -> bool, s: seq<T>, x: T)
    requires Lawful(leq)
    ensures Sort(leq, s + [x]) == Place(leq, x, Sort(leq, s))
  {
    if s == [] {
      assert s + [x] == [x] && [x][1..] == [];
    } else {
      assert (s + [x])[0] == s[0] && (s + [x])[1..] == s[1..] + [x];
      SortPlacesLast(leq, s[1..], x);
      InsertPlace(leq, s[0], x, Sort(leq, s[1..]));
    }
  }

  lemma {:induction false} SortedAt<T>(leq: (T, T) -> bool, s: seq<T>, i: nat, j: nat)
    requires Sorted(leq, s) && i < j < |s|
    ensures leq(s[i], s[j])
  {
    if i == 0 {
      assert s[j] == s[1..][j - 1];
    } else {
      SortedAt(leq, s[1..], i - 1, j - 1);
    }
  }

  /** Comparison of two values by their keys. */
  function By<T>(key: T -> Key): (T, T) -> bool {
    (x: T, y: T) => Leq(key(x), key(y))
  }

  function SortBy<T>(key: T -> Key, s: seq<T>): seq<T> {
    Sort(By(key), s)
  }

  lemma ByLawful<T(!new)>(key: T -> Key)
    ensures Lawful(By(key))
  {
    forall x, y ensures By(key)(x, y) || By(key)(y, x) {
      LeqTotal(key(x), key(y));
    }
    forall x, y, z | By(key)(x, y) && By(key)(y, z) ensures By(key)(x, z) {
      LeqTrans(key(x), key(y), key(z));
    }
  }

  lemma ByDistinguishes<T>(key: T -> Key, s: seq<T>)
    requires forall x, y :: x in s && y in s && key(x) == key(y) ==> x == y
    ensures Distinguishes(By(key), s)
  {
    forall x, y | x in s && y in s && By(key)(x, y) && By(key)(y, x) ensures x == y {
      LeqTotal(key(x), key(y));
    }
  }

  lemma Assoc<T>(a: seq<T>, b: seq<T>, c: seq<T>)
    ensures (a + b) + c == a + (b + c)
  {
  }

  // --------------------------------------------- order-insensitive traversals

  function Filter<T>(p: T -> bool, s: seq<T>): seq<T> {
    if s == [] then [] else (if p(s[0]) then [s[0]] else []) + Filter(p, s[1..])
  }

  function Map<T, U>(f: T -> U, s: seq<T>): (r: seq<U>)
    ensures |r| == |s|
    ensures forall i :: 0 <= i < |s| ==> r[i] == f(s[i])
  {
    if s == [] then [] else [f(s[0])] + Map(f, s[1..])
  }

  lemma {:induction false} FilterCounts<T>(p: T -> bool, s: seq<T>, x: T)
    ensures multiset(Filter(p, s))[x] == if p(x) then multiset(s)[x] else 0
    ensures x in Filter(p, s) <==> x in s && p(x)
  {
    if s != [] {
      FilterCounts(p, s[1..], x);
      assert s == [s[0]] + s[1..];
    }
    assert x in Filter(p, s) <==> x in multiset(Filter(p, s));
    assert x in s <==> x in multiset(s);
  }

  lemma FilterMembers<T>(p: T -> bool, s: seq<T>)
    ensures forall x :: x in Filter(p, s) <==> x in s && p(x)
  {
    forall x ensures x in Filter(p, s) <==> x in s && p(x) {
      FilterCounts(p, s, x);
    }
  }

  lemma Cut<T>(s: seq<T>, j: nat)
    requires j < |s|
    ensures s == s[..j] + [s[j]] + s[j + 1..]
    ensures multiset(s) == multiset(s[..j] + s[j + 1..]) + multiset{s[j]}
    ensures multiset(s[..j] + s[j + 1..]) == multiset(s) - multiset{s[j]}
  {
    assert s == s[..j] + [s[j]] + s[j + 1..];
    assert multiset(s) == multiset(s[..j]) + multiset{s[j]} + multiset(s[j + 1..]);
  }

  /** Splits a sequence at one element of another sequence with the same elements. */
  lemma PickOut<T>(a: seq<T>, b: seq<T>) returns (j: nat)
    requires a != [] && multiset(a) == multiset(b)
    ensures j < |b| && b[j] == a[0]
    ensures multiset(a[1..]) == multiset(b[..j] + b[j + 1..])
  {
    assert a[0] in multiset(b);
    j :| 0 <= j < |b| && b[j] == a[0];
    HeadTail(a);
    Cut(b, j);
  }

  lemma {:induction false} FilterConcat<T>(p: T -> bool, a: seq<T>, b: seq<T>)
    ensures Filter(p, a + b) == Filter(p, a) + Filter(p, b)
  {
    if a == [] {
      assert a + b == b;
    } else {
      FilterConcat(p, a[1..], b);
      assert (a + b)[0] == a[0] && (a + b)[1..] == a[1..] + b;
      Assoc(if p(a[0]) then [a[0]] else [], Filter(p, a[1..]), Filter(p, b));
    }
  }

  lemma {:induction false} FilterPermutes<T>(p: T -> bool, a: seq<T>, b: seq<T>)
    requires multiset(a) == multiset(b)
    ensures multiset(Filter(p, a)) == multiset(Filter(p, b))
  {
    Members(a, b);
    if a != [] {
      var j := PickOut(a, b);
      FilterPermutes(p, a[1..], b[..j] + b[j + 1..]);
      FilterConcat(p, b[..j], b[j + 1..]);
      FilterConcat(p, b[..j], [b[j]]);
      FilterConcat(p, b[..j] + [b[j]], b[j + 1..]);
      Cut(b, j);
      assert Filter(p, [b[j]]) == if p(b[j]) then [b[j]] else [];
    }
  }

  lemma MapConcat<T, U>(f: T -> U, a: seq<T>, b: seq<T>)
    ensures Map(f, a + b) == Map(f, a) + Map(f, b)
  {
    forall i | 0 <= i < |a + b| ensures Map(f, a + b)[i] == (Map(f, a) + Map(f, b))[i] {
      assert (a + b)[i] == if i < |a| then a[i] else b[i - |a|];
    }
  }

  lemma MapOne<T, U>(f: T -> U, x: T)
    ensures Map(f, [x]) == [f(x)]
  {
    var r := Map(f, [x]);
    assert |r| == 1 && r[0] == f([x][0]);
  }

  lemma BagMiddle<T>(p: seq<T>, m: seq<T>, q: seq<T>)
    ensures multiset(p + m + q) == multiset(p + q) + multiset(m)
  {
  }

  lemma MapMiddle<T, U>(f: T -> U, a: seq<T>, x: T, b: seq<T>)
    ensures multiset(Map(f, a + [x] + b)) == multiset(Map(f, a + b)) + multiset{f(x)}
  {
    var m := [x];
    MapConcat(f, a + m, b);
    MapConcat(f, a, m);
    MapConcat(f, a, b);
    MapOne(f, x);
    BagMiddle(Map(f, a), Map(f, m), Map(f, b));
  }

  lemma {:induction false} MapPermutes<T, U>(f: T -> U, a: seq<T>, b: seq<T>)
    requires multiset(a) == multiset(b)
    ensures multiset(Map(f, a)) == multiset(Map(f, b))
  {
    if a == [] {
      assert |multiset(b)| == 0;
      assert b == [];
    } else {
      var j := PickOut(a, b);
      var c := b[..j] + b[j + 1..];
      MapPermutes(f, a[1..], c);
      HeadTail(Map(f, a));
      assert Map(f, a)[1..] == Map(f, a[1..]);
      MapMiddle(f, b[..j], b[j], b[j + 1..]);
      Cut(b, j);
    }
  }
}
