// sort.Strings: Go's byte-wise string order, the sorted form of a list, and an
// in-place sort that reaches it.
module Sorting {
  predicate StrLe(a: string, b: string) {
    a == "" || (b != "" && (a[0] < b[0] || (a[0] == b[0] && StrLe(a[1..], b[1..]))))
  }

  lemma {:induction false} StrLeTotal(a: string, b: string)
    ensures StrLe(a, b) || StrLe(b, a)
    ensures StrLe(a, b) && StrLe(b, a) ==> a == b
  {
    if a != "" && b != "" && a[0] == b[0] {
      StrLeTotal(a[1..], b[1..]);
      assert a == [a[0]] + a[1..] && b == [b[0]] + b[1..];
    }
  }

  /** Go's order: a prefix comes first, and otherwise the first character that differs decides. */
  lemma {:induction false} StrLeMeans(a: string, b: string)
    ensures StrLe(a, b) <==>
      a <= b || exists k :: 0 <= k < |a| && k < |b| && a[..k] == b[..k] && a[k] < b[k]
  {
    if a != "" && b != "" && a[0] == b[0] {
      StrLeMeans(a[1..], b[1..]);
      assert a == [a[0]] + a[1..] && b == [b[0]] + b[1..];
      if k :| 0 <= k < |a[1..]| && k < |b[1..]| && a[1..][..k] == b[1..][..k] && a[1..][k] < b[1..][k] {
        assert a[..k + 1] == [a[0]] + a[1..][..k] && b[..k + 1] == [b[0]] + b[1..][..k];
      }
      if k :| 0 <= k < |a| && k < |b| && a[..k] == b[..k] && a[k] < b[k] {
        assert k > 0 && a[1..][..k - 1] == a[..k][1..] && b[1..][..k - 1] == b[..k][1..];
      }
    } else if a != "" && b != "" {
      if a[0] < b[0] {
        assert a[..0] == b[..0];
      }
      forall k | 0 < k < |a| && k < |b| ensures a[..k] != b[..k] {
        assert a[..k][0] != b[..k][0];
      }
    }
  }

  lemma {:induction false} StrLeTransitive(a: string, b: string, c: string)
    requires StrLe(a, b) && StrLe(b, c)
    ensures StrLe(a, c)
  {
    if a != "" && a[0] == b[0] == c[0] {
      StrLeTransitive(a[1..], b[1..], c[1..]);
    }
  }

  predicate IsSorted(s: seq<string>) {
    forall i, j :: 0 <= i < j < |s| ==> StrLe(s[i], s[j])
  }

  function Insert(x: string, s: seq<string>): seq<string> {
    if s == [] || StrLe(x, s[0]) then [x] + s else [s[0]] + Insert(x, s[1..])
  }

  /** The sorted form of a list, as a function. */
  function SortSeq(s: seq<string>): seq<string> {
    if s == [] then [] else Insert(s[0], SortSeq(s[1..]))
  }

  lemma {:induction false} InsertKeeps(x: string, s: seq<string>)
    ensures multiset(Insert(x, s)) == multiset(s) + multiset{x}
  {
    if s != [] {
      assert s == [s[0]] + s[1..];
      if !StrLe(x, s[0]) {
        InsertKeeps(x, s[1..]);
      }
    }
  }

  lemma {:induction false} InsertSorted(x: string, s: seq<string>)
    requires IsSorted(s)
    ensures IsSorted(Insert(x, s))
  {
    if s == [] {
    } else if StrLe(x, s[0]) {
      forall j | 0 <= j < |s| ensures StrLe(x, s[j]) {
        if j > 0 {
          StrLeTransitive(x, s[0], s[j]);
        }
      }
    } else {
      StrLeTotal(x, s[0]);
      InsertSorted(x, s[1..]);
      InsertKeeps(x, s[1..]);
      var r := Insert(x, s[1..]);
      forall j | 0 <= j < |r| ensures StrLe(s[0], r[j]) {
        assert r[j] in multiset(s[1..]) + multiset{x};
      }
    }
  }

  lemma {:induction false} SortSeqCorrect(s: seq<string>)
    ensures IsSorted(SortSeq(s))
    ensures multiset(SortSeq(s)) == multiset(s)
  {
    if s != [] {
      SortSeqCorrect(s[1..]);
      InsertSorted(s[0], SortSeq(s[1..]));
      InsertKeeps(s[0], SortSeq(s[1..]));
      assert s == [s[0]] + s[1..];
    }
  }

  lemma LeastFirst(a: seq<string>, x: string)
    requires IsSorted(a) && x in a
    ensures StrLe(a[0], x)
  {
    StrLeTotal(x, x);
  }

  lemma DropHead(a: seq<string>)
    requires a != []
    ensures multiset(a[1..]) == multiset(a) - multiset{a[0]}
  {
    assert a == [a[0]] + a[1..];
  }

  /** A list has only one sorted permutation. */
  lemma {:induction false} SortedUnique(a: seq<string>, b: seq<string>)
    requires IsSorted(a) && IsSorted(b)
    requires multiset(a) == multiset(b)
    ensures a == b
  {
    assert |a| == |multiset(a)| == |multiset(b)| == |b|;
    if a != [] {
      assert a[0] in multiset(b) && b[0] in multiset(a);
      LeastFirst(b, a[0]);
      LeastFirst(a, b[0]);
      StrLeTotal(a[0], b[0]);
      DropHead(a);
      DropHead(b);
      SortedUnique(a[1..], b[1..]);
    }
  }

  /** Two lists sort to the same list exactly when one is a permutation of the other. */
  lemma SortCanonical(a: seq<string>, b: seq<string>)
    ensures SortSeq(a) == SortSeq(b) <==> multiset(a) == multiset(b)
  {
    SortSeqCorrect(a);
    SortSeqCorrect(b);
    if multiset(a) == multiset(b) {
      SortedUnique(SortSeq(a), SortSeq(b));
    }
  }

  /** The first n elements are sorted, leaving aside what comes before position `hole`. */
  ghost predicate SortedExcept(s: seq<string>, n: nat, hole: nat)
    requires n <= |s|
  {
    forall p, q :: 0 <= p < q < n && q != hole ==> StrLe(s[p], s[q])
  }

  lemma SwapDown(s: seq<string>, t: seq<string>, n: nat, j: nat)
    requires 0 < j < n <= |s| == |t|
    requires t == s[j := s[j - 1]][j - 1 := s[j]]
    requires SortedExcept(s, n, j) && !StrLe(s[j - 1], s[j])
    ensures SortedExcept(t, n, j - 1)
    ensures multiset(t) == multiset(s)
  {
    StrLeTotal(s[j - 1], s[j]);
    forall p, q | 0 <= p < q < n && q != j - 1 ensures StrLe(t[p], t[q]) {
      if q == j {
        assert t[q] == s[j - 1];
      } else if p == j {
        assert StrLe(s[j - 1], s[q]);
      } else if p == j - 1 {
        assert StrLe(s[j], s[q]);
      }
    }
  }

  lemma HoleFilled(s: seq<string>, n: nat, j: nat)
    requires j < n <= |s|
    requires SortedExcept(s, n, j)
    requires j > 0 ==> StrLe(s[j - 1], s[j])
    ensures SortedExcept(s, n, n)
  {
    forall p, q | 0 <= p < q < n ensures StrLe(s[p], s[q]) {
      if q == j && p < j - 1 {
        StrLeTransitive(s[p], s[j - 1], s[j]);
      }
    }
  }

  /** Moves a[i] down to its place among the sorted elements before it. */
  method InsertDown(a: array<string>, i: nat)
    requires i < a.Length && SortedExcept(a[..], i, i)
    modifies a
    ensures SortedExcept(a[..], i + 1, i + 1)
    ensures multiset(a[..]) == multiset(old(a[..]))
  {
    var j := i;
    while j > 0 && !StrLe(a[j - 1], a[j])
      invariant 0 <= j <= i
      invariant SortedExcept(a[..], i + 1, j)
      invariant multiset(a[..]) == multiset(old(a[..]))
    {
      ghost var before := a[..];
      a[j - 1], a[j] := a[j], a[j - 1];
      assert a[..] == before[j := before[j - 1]][j - 1 := before[j]];
      SwapDown(before, a[..], i + 1, j);
      j := j - 1;
    }
    HoleFilled(a[..], i + 1, j);
  }

  method SortStrings(a: array<string>)
    modifies a
    ensures a[..] == SortSeq(old(a[..]))
  {
    hide StrLe, SortSeq;
    var i := 0;
    while i < a.Length
      invariant 0 <= i <= a.Length
      invariant SortedExcept(a[..], i, i)
      invariant multiset(a[..]) == multiset(old(a[..]))
    {
      InsertDown(a, i);
      i := i + 1;
    }
    SortSeqCorrect(old(a[..]));
    SortedUnique(a[..], SortSeq(old(a[..])));
  }
}
