/** Lexicographic order on texts and sorting, for the places where the source calls package sort. */
module Ordering {

  /** Go's < on strings */
  predicate Less(a: string, b: string) {
    b != "" && (a == "" || a[0] < b[0] || (a[0] == b[0] && Less(a[1..], b[1..])))
  }

  predicate DiffersAt(a: string, b: string, k: int) {
    0 <= k < |a| && k < |b| && a[..k] == b[..k] && a[k] != b[k]
  }

  lemma SameHead(a: string, b: string, k: int)
    requires DiffersAt(a, b, k)
    ensures k > 0 ==> a[0] == b[0]
  {
    if k > 0 {
      assert a[..k][0] == a[0] && b[..k][0] == b[0];
    }
  }

  /** The order is that of the first difference, a text coming before those it begins. */
  lemma {:induction false} LessIff(a: string, b: string)
    ensures Less(a, b) <==> a < b || exists k :: DiffersAt(a, b, k) && a[k] < b[k]
    decreases |a|
  {
    if a != "" && b != "" {
      assert a == [a[0]] + a[1..] && b == [b[0]] + b[1..];
      if a[0] == b[0] {
        LessIff(a[1..], b[1..]);
        if Less(a, b) && !(a[1..] < b[1..]) {
          var k :| DiffersAt(a[1..], b[1..], k) && a[1..][k] < b[1..][k];
          assert a[..k + 1] == [a[0]] + a[1..][..k] && b[..k + 1] == [b[0]] + b[1..][..k];
          assert DiffersAt(a, b, k + 1);
        }
        forall k | DiffersAt(a, b, k)
          ensures DiffersAt(a[1..], b[1..], k - 1)
        {
          assert k > 0 && a[1..][..k - 1] == a[..k][1..] && b[1..][..k - 1] == b[..k][1..];
        }
      } else {
        assert DiffersAt(a, b, 0);
        assert !(a < b);
        forall k | DiffersAt(a, b, k)
          ensures k == 0
        {
          SameHead(a, b, k);
        }
      }
    }
  }

  lemma {:induction false} LessIsTotal(a: string, b: string)
    ensures Less(a, b) ==> !Less(b, a)
    ensures a != b ==> Less(a, b) || Less(b, a)
    ensures !Less(a, a)
    decreases |a|
  {
    if a != "" {
      LessIsTotal(a[1..], a[1..]);
      if b != "" && a[0] == b[0] {
        LessIsTotal(a[1..], b[1..]);
        assert a == [a[0]] + a[1..] && b == [b[0]] + b[1..];
      }
    }
  }

  lemma {:induction false} LessIsTransitive(a: string, b: string, c: string)
    requires !Less(b, a) && !Less(c, b)
    ensures !Less(c, a)
    ensures Less(a, b) || Less(b, c) ==> Less(a, c)
    decreases |a|
  {
    if a != "" && b != "" && c != "" && a[0] == b[0] == c[0] {
      LessIsTransitive(a[1..], b[1..], c[1..]);
    }
  }

  /** A strict weak order. */
  ghost predicate Ranks<T(!new)>(before: (T, T) -> bool) {
    && (forall a, b :: before(a, b) ==> !before(b, a))
    && (forall a, b, c :: !before(b, a) && !before(c, b) ==> !before(c, a))
  }

  ghost predicate Sorted<T>(s: seq<T>, before: (T, T) -> bool) {
    forall i, j :: 0 <= i < j < |s| ==> !before(s[j], s[i])
  }

  function Insert<T>(x: T, s: seq<T>, before: (T, T) -> bool): seq<T> {
    if s == [] || !before(s[0], x) then [x] + s else [s[0]] + Insert(x, s[1..], before)
  }

  /** sort.SliceStable */
  function Sort<T>(s: seq<T>, before: (T, T) -> bool): seq<T> {
    if s == [] then [] else Insert(s[0], Sort(s[1..], before), before)
  }

  lemma {:induction false} InsertPermutes<T>(x: T, s: seq<T>, before: (T, T) -> bool)
    ensures multiset(Insert(x, s, before)) == multiset(s) + multiset{x}
  {
    if s != [] && before(s[0], x) {
      InsertPermutes(x, s[1..], before);
      assert s == [s[0]] + s[1..];
    }
  }

  lemma {:induction false} SortPermutes<T>(s: seq<T>, before: (T, T) -> bool)
    ensures multiset(Sort(s, before)) == multiset(s)
  {
    if s != [] {
      SortPermutes(s[1..], before);
      InsertPermutes(s[0], Sort(s[1..], before), before);
      assert s == [s[0]] + s[1..];
    }
  }

  lemma {:induction false} InsertSorts<T(!new)>(x: T, s: seq<T>, before: (T, T) -> bool)
    requires Ranks(before) && Sorted(s, before)
    ensures Sorted(Insert(x, s, before), before)
  {
    if s != [] {
      if before(s[0], x) {
        var rest := Insert(x, s[1..], before);
        InsertSorts(x, s[1..], before);
        InsertPermutes(x, s[1..], before);
        forall j | 0 <= j < |rest|
          ensures !before(rest[j], s[0])
        {
          assert rest[j] in multiset(rest);
        }
      } else {
        assert forall j :: 0 <= j < |s| ==> !before(s[j], x);
      }
    }
  }

  lemma {:induction false} SortSorts<T(!new)>(s: seq<T>, before: (T, T) -> bool)
    requires Ranks(before)
    ensures Sorted(Sort(s, before), before)
  {
    if s != [] {
      SortSorts(s[1..], before);
      InsertSorts(s[0], Sort(s[1..], before), before);
    }
  }

  lemma LeastIsNotAfter<T(!new)>(a: seq<T>, x: T, before: (T, T) -> bool)
    requires Sorted(a, before) && x in multiset(a)
    ensures x == a[0] || !before(x, a[0])
  {
  }

  lemma RepeatedCountsTwice<T(!new)>(s: seq<T>, i: nat, j: nat)
    requires i < j < |s| && s[i] == s[j]
    ensures multiset(s)[s[j]] >= 2
  {
    assert s == s[..j] + [s[j]] + s[j + 1..];
    assert s[..j][i] == s[i];
  }

  lemma {:induction false} DistinctCountsOnce<T(!new)>(s: seq<T>, x: T)
    requires forall i, j :: 0 <= i < j < |s| ==> s[i] != s[j]
    ensures multiset(s)[x] <= 1
  {
    if s != [] {
      DistinctCountsOnce(s[1..], x);
      assert s == [s[0]] + s[1..];
      assert s[0] !in s[1..];
    }
  }

  /** Of two different elements of the collection one comes before the other. */
  ghost predicate TellsApart<T(!new)>(m: multiset<T>, before: (T, T) -> bool) {
    forall x, y :: x in m && y in m && x != y ==> before(x, y) || before(y, x)
  }

  lemma TailOf<T(!new)>(a: seq<T>, before: (T, T) -> bool)
    requires a != [] && Sorted(a, before)
    ensures Sorted(a[1..], before)
    ensures multiset(a[1..]) == multiset(a) - multiset{a[0]} && a[0] in multiset(a)
    ensures TellsApart(multiset(a), before) ==> TellsApart(multiset(a[1..]), before)
  {
    assert a == [a[0]] + a[1..];
  }

  lemma SameLeast<T(!new)>(a: seq<T>, b: seq<T>, before: (T, T) -> bool)
    requires Sorted(a, before) && Sorted(b, before) && multiset(a) == multiset(b) && a != [] && b != []
    requires TellsApart(multiset(a), before)
    ensures a[0] == b[0]
  {
    hide Sorted;
    TailOf(a, before);
    TailOf(b, before);
    LeastIsNotAfter(a, b[0], before);
    LeastIsNotAfter(b, a[0], before);
  }

  /** When any two different elements are ranked, a sorted arrangement is unique: sorting forgets
      the order in which the elements were collected. */
  lemma {:induction false} SortedIsUnique<T(!new)>(a: seq<T>, b: seq<T>, before: (T, T) -> bool)
    requires Sorted(a, before) && Sorted(b, before) && multiset(a) == multiset(b)
    requires TellsApart(multiset(a), before)
    ensures a == b
    decreases |a|
  {
    hide Sorted, TellsApart;
    assert |a| == |multiset(a)| == |multiset(b)| == |b|;
    if a != [] {
      TailOf(a, before);
      TailOf(b, before);
      SameLeast(a, b, before);
      SortedIsUnique(a[1..], b[1..], before);
      assert a == [a[0]] + a[1..] && b == [b[0]] + b[1..];
    }
  }
}
