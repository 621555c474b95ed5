/** Names of things -- board ids, job ids, families -- are text, ordered as Python orders text. */
module Names {

  datatype Option<+T> = None | Some(value: T)

  /** Strictly before, character by character. */
  predicate Before(a: string, b: string) {
    if b == [] then false
    else if a == [] then true
    else a[0] < b[0] || (a[0] == b[0] && Before(a[1..], b[1..]))
  }

  lemma {:induction false} BeforeTotal(a: string, b: string)
    ensures Before(a, b) || a == b || Before(b, a)
  {
    if a != [] && b != [] && a[0] == b[0] {
      BeforeTotal(a[1..], b[1..]);
      if a[1..] == b[1..] {
        assert a == [a[0]] + a[1..] && b == [b[0]] + b[1..];
      }
    }
  }

  lemma {:induction false} BeforeIrreflexive(a: string)
    ensures !Before(a, a)
  {
    if a != [] {
      BeforeIrreflexive(a[1..]);
    }
  }

  lemma {:induction false} BeforeTransitive(a: string, b: string, c: string)
    requires Before(a, b) && Before(b, c)
    ensures Before(a, c)
  {
    if a != [] && a[0] == b[0] && b[0] == c[0] {
      BeforeTransitive(a[1..], b[1..], c[1..]);
    }
  }

  ghost predicate Increasing(s: seq<string>) {
    forall i, j :: 0 <= i < j < |s| ==> Before(s[i], s[j])
  }

  ghost predicate Distinct<T>(s: seq<T>) {
    forall i, j :: 0 <= i < j < |s| ==> s[i] != s[j]
  }

  function Insert(x: string, s: seq<string>): seq<string> {
    if s == [] then [x]
    else if Before(s[0], x) then [s[0]] + Insert(x, s[1..])
    else [x] + s
  }

  /** `sorted` of a collection of names. */
  function Sorted(s: seq<string>): seq<string> {
    if s == [] then [] else Insert(s[0], Sorted(s[1..]))
  }

  lemma {:induction false} InsertKeeps(x: string, s: seq<string>)
    ensures multiset(Insert(x, s)) == multiset(s) + multiset{x}
  {
    if s != [] && Before(s[0], x) {
      InsertKeeps(x, s[1..]);
      assert s == [s[0]] + s[1..];
    }
  }

  lemma {:induction false} SortedKeeps(s: seq<string>)
    ensures multiset(Sorted(s)) == multiset(s)
  {
    if s != [] {
      SortedKeeps(s[1..]);
      InsertKeeps(s[0], Sorted(s[1..]));
      assert s == [s[0]] + s[1..];
    }
  }

  lemma SortedLength(s: seq<string>)
    ensures |Sorted(s)| == |s|
  {
    SortedKeeps(s);
    assert |multiset(Sorted(s))| == |Sorted(s)| && |multiset(s)| == |s|;
  }

  lemma SortedMembers(s: seq<string>, x: string)
    ensures x in Sorted(s) <==> x in s
  {
    SortedKeeps(s);
    assert x in multiset(Sorted(s)) <==> x in Sorted(s);
    assert x in multiset(s) <==> x in s;
  }

  lemma {:induction false} InsertIncreasing(x: string, s: seq<string>)
    requires Increasing(s) && x !in s
    ensures Increasing(Insert(x, s))
  {
    if s == [] {
    } else if Before(s[0], x) {
      InsertIncreasing(x, s[1..]);
      InsertKeeps(x, s[1..]);
      forall y | y in Insert(x, s[1..]) ensures Before(s[0], y) {
        assert y in multiset(Insert(x, s[1..]));
        assert y == x || y in s[1..];
      }
    } else {
      BeforeTotal(x, s[0]);
      forall i | 0 <= i < |s| ensures Before(x, s[i]) {
        if i > 0 { BeforeTransitive(x, s[0], s[i]); }
      }
    }
  }

  /** Distinct names sort into a strictly increasing sequence. */
  lemma {:induction false} SortedIncreasing(s: seq<string>)
    requires Distinct(s)
    ensures Increasing(Sorted(s))
  {
    if s != [] {
      SortedIncreasing(s[1..]);
      SortedMembers(s[1..], s[0]);
      InsertIncreasing(s[0], Sorted(s[1..]));
    }
  }

  lemma IncreasingDistinct(s: seq<string>)
    requires Increasing(s)
    ensures Distinct(s)
  {
    forall i, j | 0 <= i < j < |s| ensures s[i] != s[j] {
      BeforeIrreflexive(s[i]);
    }
  }

  lemma DistinctAppend<T>(a: seq<T>, b: seq<T>)
    requires Distinct(a) && Distinct(b)
    requires forall x :: x in b ==> x !in a
    ensures Distinct(a + b)
  {
    forall i, j | 0 <= i < j < |a + b| ensures (a + b)[i] != (a + b)[j] {
      if i < |a| <= j {
        assert a[i] in a && b[j - |a|] in b;
      }
    }
  }

  /** Names that differ as their numbers do. */
  function Dots(n: nat): (s: string)
    ensures |s| == n
  {
    seq(n, _ => '.')
  }
}
