/**
  The part results of a multipart upload and the list that completion sends:
  `_.sortBy(parts, ['PartNumber'])`, a stable sort on the part number.
 */
module PartLists {

  type ETag = string

  /** What a successful part upload resolves to (`{ETag, PartNumber}`); caller-supplied
      resume parts have the same shape. */
  datatype PartResult = PartResult(eTag: ETag, partNumber: int)

  predicate SortedByNumber(s: seq<PartResult>) {
    forall i, j :: 0 <= i < j < |s| ==> s[i].partNumber <= s[j].partNumber
  }

  /** The subsequence of `s` whose part number is `n`, in the order of `s`. */
  function WithNumber(s: seq<PartResult>, n: int): seq<PartResult> {
    if |s| == 0 then []
    else (if s[0].partNumber == n then [s[0]] else []) + WithNumber(s[1..], n)
  }

  /** Puts `p` in front of the first element whose number is not smaller than its own. */
  function InsertByNumber(p: PartResult, sorted: seq<PartResult>): (r: seq<PartResult>)
    requires SortedByNumber(sorted)
    ensures SortedByNumber(r)
    ensures multiset(r) == multiset(sorted) + multiset{p}
    ensures r != [] && (r[0] == p || (sorted != [] && r[0] == sorted[0]))
  {
    if |sorted| == 0 || p.partNumber <= sorted[0].partNumber then
      ConsSorted(p, sorted);
      [p] + sorted
    else
      var rest := InsertByNumber(p, sorted[1..]);
      assert sorted == [sorted[0]] + sorted[1..];
      ConsSorted(sorted[0], rest);
      assert multiset([sorted[0]] + rest) == multiset{sorted[0]} + multiset(rest);
      [sorted[0]] + rest
  }

  /** A part no larger than the head of a sorted list can go in front of it. */
  lemma ConsSorted(x: PartResult, s: seq<PartResult>)
    requires SortedByNumber(s) && (s == [] || x.partNumber <= s[0].partNumber)
    ensures SortedByNumber([x] + s)
  {
    var r := [x] + s;
    forall i, j | 0 <= i < j < |r| ensures r[i].partNumber <= r[j].partNumber {
      assert r[j] == s[j - 1];
      if i > 0 {
        assert r[i] == s[i - 1];
      }
    }
  }

  /** The order in which completion hands the parts to the store. */
  function SortByPartNumber(s: seq<PartResult>): (r: seq<PartResult>)
    ensures SortedByNumber(r)
    ensures multiset(r) == multiset(s)
  {
    if |s| == 0 then []
    else
      assert s == [s[0]] + s[1..];
      InsertByNumber(s[0], SortByPartNumber(s[1..]))
  }

  lemma {:induction false} WithNumberAppend(a: seq<PartResult>, b: seq<PartResult>, n: int)
    ensures WithNumber(a + b, n) == WithNumber(a, n) + WithNumber(b, n)
  {
    if |a| == 0 {
      assert a + b == b;
    } else {
      var head := if a[0].partNumber == n then [a[0]] else [];
      WithNumberAppend(a[1..], b, n);
      assert (a + b)[0] == a[0] && (a + b)[1..] == a[1..] + b;
      assert WithNumber(a + b, n) == head + WithNumber(a[1..] + b, n);
      assert WithNumber(a, n) == head + WithNumber(a[1..], n);
      assert head + (WithNumber(a[1..], n) + WithNumber(b, n)) == (head + WithNumber(a[1..], n)) + WithNumber(b, n);
    }
  }

  /** Inserting `p` puts it ahead of every element that carries the same number. */
  lemma {:induction false} InsertKeepsEqualNumbersInOrder(p: PartResult, sorted: seq<PartResult>, n: int)
    requires SortedByNumber(sorted)
    ensures WithNumber(InsertByNumber(p, sorted), n) == WithNumber([p], n) + WithNumber(sorted, n)
  {
    if |sorted| == 0 || p.partNumber <= sorted[0].partNumber {
      WithNumberAppend([p], sorted, n);
    } else {
      var rest := InsertByNumber(p, sorted[1..]);
      InsertKeepsEqualNumbersInOrder(p, sorted[1..], n);
      WithNumberAppend([sorted[0]], rest, n);
      assert sorted == [sorted[0]] + sorted[1..];
      WithNumberAppend([sorted[0]], sorted[1..], n);
      WithNumberSingle(p, n);
      WithNumberSingle(sorted[0], n);
      if p.partNumber == n {
        assert WithNumber([sorted[0]], n) == [];
      } else {
        assert WithNumber([p], n) == [];
      }
    }
  }

  lemma WithNumberSingle(x: PartResult, n: int)
    ensures WithNumber([x], n) == if x.partNumber == n then [x] else []
  {
    assert [x][1..] == [];
  }

  /** The sort is stable: parts with equal numbers keep their submission order. */
  lemma {:induction false} SortKeepsEqualNumbersInOrder(s: seq<PartResult>, n: int)
    ensures WithNumber(SortByPartNumber(s), n) == WithNumber(s, n)
  {
    if |s| != 0 {
      var sortedRest := SortByPartNumber(s[1..]);
      assert SortByPartNumber(s) == InsertByNumber(s[0], sortedRest);
      SortKeepsEqualNumbersInOrder(s[1..], n);
      InsertKeepsEqualNumbersInOrder(s[0], sortedRest, n);
      assert s == [s[0]] + s[1..];
      WithNumberAppend([s[0]], s[1..], n);
    }
  }

  lemma SortIsStable(s: seq<PartResult>)
    ensures forall n :: WithNumber(SortByPartNumber(s), n) == WithNumber(s, n)
  {
    forall n ensures WithNumber(SortByPartNumber(s), n) == WithNumber(s, n) {
      SortKeepsEqualNumbersInOrder(s, n);
    }
  }
}
