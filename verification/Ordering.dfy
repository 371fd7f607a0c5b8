/** Stable sorting by a comparison, as Python's sorted does it, and string order. */
module Ordering {

  ghost predicate Preorder<T(!new)>(le: (T, T) -> bool) {
    && (forall a, b :: le(a, b) || le(b, a))
    && (forall a, b, c :: le(a, b) && le(b, c) ==> le(a, c))
  }

  function Insert<T>(le: (T, T) -> bool, x: T, s: seq<T>): seq<T> {
    if s == [] then [x]
    else if le(x, s[0]) then [x] + s
    else [s[0]] + Insert(le, x, s[1..])
  }

  function Sort<T>(le: (T, T) -> bool, s: seq<T>): seq<T> {
    if s == [] then [] else Insert(le, s[0], Sort(le, s[1..]))
  }

  ghost predicate Sorted<T>(le: (T, T) -> bool, s: seq<T>) {
    forall i, j :: 0 <= i < j < |s| ==> le(s[i], s[j])
  }

  lemma {:induction false} InsertKeeps<T>(le: (T, T) -> bool, x: T, s: seq<T>)
    ensures multiset(Insert(le, x, s)) == multiset(s) + multiset{x}
    ensures |Insert(le, x, s)| == |s| + 1
  {
    if s == [] {
    } else if le(x, s[0]) {
    } else {
      InsertKeeps(le, x, s[1..]);
      assert s == [s[0]] + s[1..];
    }
  }

  lemma {:induction false} InsertMember<T>(le: (T, T) -> bool, x: T, s: seq<T>, y: T)
    ensures y in Insert(le, x, s) <==> y == x || y in s
  {
    InsertKeeps(le, x, s);
    assert y in Insert(le, x, s) <==> y in multiset(Insert(le, x, s));
    assert y in s <==> y in multiset(s);
  }

  lemma {:induction false} InsertSorted<T(!new)>(le: (T, T) -> bool, x: T, s: seq<T>)
    requires Preorder(le) && Sorted(le, s)
    ensures Sorted(le, Insert(le, x, s))
  {
    if s == [] {
    } else if le(x, s[0]) {
    } else {
      InsertSorted(le, x, s[1..]);
      var rest := Insert(le, x, s[1..]);
      forall j | 0 <= j < |rest|
        ensures le(s[0], rest[j])
      {
        InsertMember(le, x, s[1..], rest[j]);
        assert rest[j] in rest;
        if rest[j] != x {
          var k :| 0 <= k < |s[1..]| && s[1..][k] == rest[j];
          assert s[k + 1] == rest[j];
        }
      }
    }
  }

  lemma {:induction false} SortRearranges<T>(le: (T, T) -> bool, s: seq<T>)
    ensures multiset(Sort(le, s)) == multiset(s) && |Sort(le, s)| == |s|
  {
    if s != [] {
      SortRearranges(le, s[1..]);
      InsertKeeps(le, s[0], Sort(le, s[1..]));
      assert s == [s[0]] + s[1..];
    }
  }

  lemma {:induction false} SortMember<T>(le: (T, T) -> bool, s: seq<T>, x: T)
    ensures x in Sort(le, s) <==> x in s
  {
    SortRearranges(le, s);
    MultisetMember(Sort(le, s), x);
    MultisetMember(s, x);
  }

  lemma {:induction false} SortOrders<T(!new)>(le: (T, T) -> bool, s: seq<T>)
    requires Preorder(le)
    ensures Sorted(le, Sort(le, s))
  {
    if s != [] {
      SortOrders(le, s[1..]);
      InsertSorted(le, s[0], Sort(le, s[1..]));
    }
  }

  predicate Ties<T>(le: (T, T) -> bool, x: T, y: T) {
    le(x, y) && le(y, x)
  }

  /** The members that tie with x, in order. */
  function Tied<T>(le: (T, T) -> bool, x: T, s: seq<T>): seq<T> {
    if s == [] then []
    else
      var rest := Tied(le, x, s[1..]);
      if Ties(le, x, s[0]) then [s[0]] + rest else rest
  }

  lemma {:induction false} InsertTied<T(!new)>(le: (T, T) -> bool, x: T, z: T, s: seq<T>)
    requires Preorder(le)
    ensures Tied(le, x, Insert(le, z, s)) == if Ties(le, x, z) then [z] + Tied(le, x, s) else Tied(le, x, s)
  {
    if s == [] {
      assert Tied(le, x, [z][1..]) == [];
    } else if le(z, s[0]) {
      assert ([z] + s)[1..] == s;
    } else {
      InsertTied(le, x, z, s[1..]);
      var rest := Insert(le, z, s[1..]);
      assert ([s[0]] + rest)[1..] == rest;
      assert Ties(le, x, z) ==> !Ties(le, x, s[0]);
    }
  }

  /** Sorting leaves members that tie in the order they came in. */
  lemma {:induction false} SortIsStable<T(!new)>(le: (T, T) -> bool, s: seq<T>, x: T)
    requires Preorder(le)
    ensures Tied(le, x, Sort(le, s)) == Tied(le, x, s)
  {
    if s != [] {
      SortIsStable(le, s[1..], x);
      InsertTied(le, x, s[0], Sort(le, s[1..]));
    }
  }

  /** Sorting rearranges, puts in order, and is stable. */
  lemma {:induction false} SortCorrect<T(!new)>(le: (T, T) -> bool, s: seq<T>)
    requires Preorder(le)
    ensures multiset(Sort(le, s)) == multiset(s) && |Sort(le, s)| == |s|
    ensures Sorted(le, Sort(le, s))
    ensures forall x :: x in Sort(le, s) <==> x in s
    ensures forall x :: Tied(le, x, Sort(le, s)) == Tied(le, x, s)
  {
    SortRearranges(le, s);
    SortOrders(le, s);
    forall x
      ensures x in Sort(le, s) <==> x in s
      ensures Tied(le, x, Sort(le, s)) == Tied(le, x, s)
    {
      SortMember(le, s, x);
      SortIsStable(le, s, x);
    }
  }

  /** Ties between different members are impossible. */
  ghost predicate Decides<T(!new)>(le: (T, T) -> bool, s: seq<T>) {
    forall a, b :: a in s && b in s && le(a, b) && le(b, a) ==> a == b
  }

  lemma {:induction false} MultisetMember<T>(s: seq<T>, x: T)
    ensures x in s <==> x in multiset(s)
  {
  }

  /** The two arrangements agree on their first element. */
  lemma {:induction false} SameFirst<T(!new)>(le: (T, T) -> bool, s: seq<T>, t: seq<T>)
    requires Preorder(le) && Decides(le, s) && Sorted(le, s) && Sorted(le, t)
    requires multiset(s) == multiset(t) && s != []
    ensures t != [] && s[0] == t[0]
  {
    assert |multiset(s)| == |s| && |multiset(t)| == |t|;
    MultisetMember(t, s[0]);
    MultisetMember(s, t[0]);
    assert s[0] in s && t[0] in t;
    var i :| 0 <= i < |t| && t[i] == s[0];
    var j :| 0 <= j < |s| && s[j] == t[0];
    assert le(s[0], s[0]) && le(t[0], t[0]);
    assert le(s[0], t[0]) && le(t[0], s[0]);
  }

  /** Where the comparison decides, there is only one order. */
  lemma {:induction false} SortedIsUnique<T(!new)>(le: (T, T) -> bool, s: seq<T>, t: seq<T>)
    requires Preorder(le) && Decides(le, s) && Sorted(le, s) && Sorted(le, t)
    requires multiset(s) == multiset(t)
    ensures s == t
    decreases |s|
  {
    hide Sorted, Decides, Preorder;
    if s == [] {
      assert |multiset(t)| == |t|;
    } else {
      SameFirst(le, s, t);
      TailMultiset(s);
      TailMultiset(t);
      TailsStay(le, s);
      TailsStay(le, t);
      var x, rest, other := s[0], s[1..], t[1..];
      assert s == [x] + rest && t == [x] + other;
      SortedIsUnique(le, rest, other);
    }
  }

  lemma {:induction false} TailMultiset<T>(s: seq<T>)
    requires s != []
    ensures multiset(s[1..]) == multiset(s) - multiset{s[0]}
  {
    assert s == [s[0]] + s[1..];
  }

  lemma {:induction false} TailsStay<T(!new)>(le: (T, T) -> bool, s: seq<T>)
    requires s != [] && Sorted(le, s)
    ensures Sorted(le, s[1..])
    ensures Decides(le, s) ==> Decides(le, s[1..])
  {
    assert forall a :: a in s[1..] ==> a in s;
  }

  /** Rearranging the input of a deciding sort does not change its output. */
  lemma {:induction false} SortForgetsOrder<T(!new)>(le: (T, T) -> bool, s: seq<T>, t: seq<T>)
    requires Preorder(le) && Decides(le, s) && multiset(s) == multiset(t)
    ensures Sort(le, s) == Sort(le, t)
  {
    SortCorrect(le, s);
    SortCorrect(le, t);
    SortedIsUnique(le, Sort(le, s), Sort(le, t));
  }

  // ------------------------------------------------------------ string order

  /** a <= b as Python compares strings, by code point. */
  predicate StringLe(a: string, b: string) {
    if a == [] then true
    else if b == [] then false
    else if a[0] != b[0] then a[0] < b[0]
    else StringLe(a[1..], b[1..])
  }

  lemma {:induction false} StringLeTotal(a: string, b: string)
    ensures StringLe(a, b) || StringLe(b, a)
    ensures StringLe(a, b) && StringLe(b, a) ==> a == b
  {
    if a != [] && b != [] && a[0] == b[0] {
      StringLeTotal(a[1..], b[1..]);
      assert a == [a[0]] + a[1..] && b == [b[0]] + b[1..];
    }
  }

  lemma {:induction false} StringLeTransitive(a: string, b: string, c: string)
    requires StringLe(a, b) && StringLe(b, c)
    ensures StringLe(a, c)
  {
    if a != [] && c != [] && a[0] == b[0] == c[0] {
      StringLeTransitive(a[1..], b[1..], c[1..]);
    }
  }

  /** Where the strings first differ, a has the smaller character. */
  predicate FirstDifference(a: string, b: string) {
    exists k :: 0 <= k < |a| && k < |b| && a[..k] == b[..k] && a[k] < b[k]
  }

  lemma {:induction false} DifferenceLater(a: string, b: string)
    requires a != [] && b != []
    ensures FirstDifference(a[1..], b[1..]) && a[0] == b[0] ==> FirstDifference(a, b)
  {
    if k :| 0 <= k < |a[1..]| && k < |b[1..]| && a[1..][..k] == b[1..][..k] && a[1..][k] < b[1..][k] {
      assert a[..k + 1] == [a[0]] + a[1..][..k] && b[..k + 1] == [b[0]] + b[1..][..k];
      assert a[k + 1] < b[k + 1];
    }
  }

  lemma {:induction false} DifferenceFrom(a: string, b: string)
    requires a != [] && b != [] && FirstDifference(a, b)
    ensures a[0] < b[0] || (a[0] == b[0] && FirstDifference(a[1..], b[1..]))
  {
    var k :| 0 <= k < |a| && k < |b| && a[..k] == b[..k] && a[k] < b[k];
    if k > 0 {
      assert a[..k][0] == a[0] && b[..k][0] == b[0];
      assert a[1..][..k - 1] == a[..k][1..] && b[1..][..k - 1] == b[..k][1..];
      assert a[1..][k - 1] < b[1..][k - 1];
    }
  }

  lemma {:induction false} DifferenceAtOnce(a: string, b: string)
    requires a != [] && b != []
    ensures a[0] < b[0] ==> FirstDifference(a, b)
    ensures a <= b <==> a[0] == b[0] && a[1..] <= b[1..]
  {
    assert a[..0] == b[..0];
    assert a == [a[0]] + a[1..] && b == [b[0]] + b[1..];
  }

  /** The first difference decides, and a prefix comes first. */
  lemma {:induction false} StringLeIs(a: string, b: string)
    ensures StringLe(a, b) <==> a <= b || FirstDifference(a, b)
  {
    if a != [] && b != [] {
      DifferenceLater(a, b);
      DifferenceAtOnce(a, b);
      if FirstDifference(a, b) {
        DifferenceFrom(a, b);
      }
      StringLeIs(a[1..], b[1..]);
      hide FirstDifference;
    }
  }
}
