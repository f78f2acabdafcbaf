/**
  Python's order on strings and `sorted` on lists of strings.
  */
module Ordering {

  /** Lexicographic order by code point. */
  predicate Le(a: string, b: string) {
    a == "" || (b != "" && (a[0] < b[0] || (a[0] == b[0] && Le(a[1..], b[1..]))))
  }

  lemma {:induction false} Reflexive(a: string)
    ensures Le(a, a)
  {
    if a != "" {
      Reflexive(a[1..]);
    }
  }

  lemma {:induction false} Total(a: string, b: string)
    ensures Le(a, b) || Le(b, a)
  {
    if a != "" && b != "" {
      Total(a[1..], b[1..]);
    }
  }

  lemma {:induction false} Antisymmetric(a: string, b: string)
    requires Le(a, b) && Le(b, a)
    ensures a == b
  {
    if a != "" {
      Antisymmetric(a[1..], b[1..]);
      assert a == [a[0]] + a[1..] && b == [b[0]] + b[1..];
    }
  }

  lemma {:induction false} Transitive(a: string, b: string, c: string)
    requires Le(a, b) && Le(b, c)
    ensures Le(a, c)
  {
    if a != "" && a[0] == b[0] == c[0] {
      Transitive(a[1..], b[1..], c[1..]);
    }
  }

  /** A string comes before everything it is a prefix of. */
  lemma {:induction false} PrefixFirst(a: string, b: string)
    requires a <= b
    ensures Le(a, b)
  {
    if a != "" {
      PrefixFirst(a[1..], b[1..]);
    }
  }

  ghost predicate IsSorted(s: seq<string>) {
    forall i, j :: 0 <= i < j < |s| ==> Le(s[i], s[j])
  }

  function Insert(x: string, s: seq<string>): seq<string> {
    if s == [] then [x]
    else if Le(x, s[0]) then [x] + s
    else [s[0]] + Insert(x, s[1..])
  }

  function Sorted(s: seq<string>): seq<string> {
    if s == [] then [] else Insert(s[0], Sorted(s[1..]))
  }

  lemma {:induction false} InsertKeeps(x: string, s: seq<string>)
    ensures multiset(Insert(x, s)) == multiset{x} + multiset(s)
    ensures |Insert(x, s)| == |s| + 1
  {
    if s != [] {
      InsertKeeps(x, s[1..]);
      assert s == [s[0]] + s[1..];
    }
  }

  lemma {:induction false} InsertSorts(x: string, s: seq<string>)
    requires IsSorted(s)
    ensures IsSorted(Insert(x, s))
  {
    if s == [] {
    } else if Le(x, s[0]) {
      forall i | 0 <= i < |s|
        ensures Le(x, s[i])
      {
        if i > 0 {
          Transitive(x, s[0], s[i]);
        }
      }
    } else {
      InsertSorts(x, s[1..]);
      InsertKeeps(x, s[1..]);
      var rest := Insert(x, s[1..]);
      forall i | 0 <= i < |rest|
        ensures Le(s[0], rest[i])
      {
        assert rest[i] in multiset(rest);
        assert rest[i] == x || rest[i] in s[1..];
        Total(x, s[0]);
      }
    }
  }

  /** `sorted(s)` is sorted and has the same elements, each as often. */
  lemma {:induction false} SortedIs(s: seq<string>)
    ensures IsSorted(Sorted(s)) && multiset(Sorted(s)) == multiset(s) && |Sorted(s)| == |s|
  {
    if s != [] {
      SortedIs(s[1..]);
      InsertSorts(s[0], Sorted(s[1..]));
      InsertKeeps(s[0], Sorted(s[1..]));
      assert s == [s[0]] + s[1..];
    }
  }

  lemma SameElements<T>(a: seq<T>, b: seq<T>)
    requires multiset(a) == multiset(b)
    ensures |a| == |b|
    ensures forall x :: x in a <==> x in b
  {
    assert |multiset(a)| == |a| && |multiset(b)| == |b|;
    assert forall x :: x in a <==> x in multiset(a);
    assert forall x :: x in b <==> x in multiset(b);
  }

  lemma TailOf<T>(s: seq<T>)
    requires s != []
    ensures multiset(s[1..]) == multiset(s) - multiset{s[0]}
  {
    assert s == [s[0]] + s[1..];
  }

  lemma SameFirst(a: seq<string>, b: seq<string>)
    requires IsSorted(a) && IsSorted(b) && multiset(a) == multiset(b) && a != []
    ensures b != [] && a[0] == b[0]
  {
    SameElements(a, b);
    assert a[0] in b && b[0] in a;
    FirstIsLeast(a, b[0]);
    FirstIsLeast(b, a[0]);
    Antisymmetric(a[0], b[0]);
  }

  /** A list has only one sorted arrangement. */
  lemma {:induction false} SortedUnique(a: seq<string>, b: seq<string>)
    requires IsSorted(a) && IsSorted(b) && multiset(a) == multiset(b)
    ensures a == b
  {
    if a == [] {
      SameElements(a, b);
    } else {
      SameFirst(a, b);
      TailOf(a);
      TailOf(b);
      SortedUnique(a[1..], b[1..]);
      assert a == [a[0]] + a[1..] && b == [b[0]] + b[1..];
    }
  }

  lemma FirstIsLeast(s: seq<string>, x: string)
    requires IsSorted(s) && x in s
    ensures Le(s[0], x)
  {
    var i :| 0 <= i < |s| && s[i] == x;
    Reflexive(x);
  }

  /** Sorting forgets the order of a list and nothing else. */
  lemma SortedEqual(a: seq<string>, b: seq<string>)
    ensures Sorted(a) == Sorted(b) <==> multiset(a) == multiset(b)
  {
    SortedIs(a);
    SortedIs(b);
    if multiset(a) == multiset(b) {
      SortedUnique(Sorted(a), Sorted(b));
    }
  }

  lemma SortedTwice(s: seq<string>)
    ensures Sorted(Sorted(s)) == Sorted(s)
  {
    SortedIs(s);
    SortedIs(Sorted(s));
    SortedUnique(Sorted(Sorted(s)), Sorted(s));
  }

  ghost predicate Distinct<T>(s: seq<T>) {
    forall i, j :: 0 <= i < j < |s| ==> s[i] != s[j]
  }

  /** `l` lists the elements of `s`, each once. */
  ghost predicate Lists(l: seq<string>, s: set<string>) {
    Distinct(l) && forall x :: x in l <==> x in s
  }

  lemma InsertLists(x: string, l: seq<string>, s: set<string>)
    requires Lists(l, s) && x !in s
    ensures Lists(Insert(x, l), s + {x})
  {
    InsertKeeps(x, l);
    var longer := Insert(x, l);
    SameElements(longer, [x] + l);
    forall i, j | 0 <= i < j < |longer|
      ensures longer[i] != longer[j]
    {
      DistinctByCount([x] + l, longer, i, j);
    }
  }

  lemma DistinctByCount<T>(a: seq<T>, b: seq<T>, i: nat, j: nat)
    requires Distinct(a) && multiset(a) == multiset(b) && i < j < |b|
    ensures b[i] != b[j]
  {
    AtMostOnce(a, b[i]);
    assert b == b[..j] + [b[j]] + b[j + 1..];
    assert b[i] in b[..j];
    assert multiset(b) == multiset(b[..j]) + multiset{b[j]} + multiset(b[j + 1..]);
  }

  lemma {:induction false} AtMostOnce<T>(a: seq<T>, x: T)
    requires Distinct(a)
    ensures multiset(a)[x] <= 1
  {
    if a != [] {
      AtMostOnce(a[1..], x);
      assert a == [a[0]] + a[1..];
      assert multiset(a) == multiset{a[0]} + multiset(a[1..]);
    }
  }

  /** `sorted` of a set of strings. */
  method SortedList(s: set<string>) returns (l: seq<string>)
    ensures IsSorted(l) && Lists(l, s)
  {
    l := [];
    var rest := s;
    while rest != {}
      invariant rest <= s && IsSorted(l) && Lists(l, s - rest)
      decreases rest
    {
      var x :| x in rest;
      InsertSorts(x, l);
      InsertLists(x, l, s - rest);
      assert s - (rest - {x}) == (s - rest) + {x};
      l := Insert(x, l);
      rest := rest - {x};
    }
    assert s - rest == s;
  }
}
