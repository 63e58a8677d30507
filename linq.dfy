/**
 * src/composables/useLinq.ts: the comparators handed to `Array.sort` and
 * `ucFirst`. The comparators are modelled on numeric property values; the
 * string branch goes through `Intl.Collator`, which is not part of this model.
 */
module Linq {
  import opened Text

  /** `orderBy(property)` on two numeric property values: `a > b ? 1 : b > a ? -1 : 0`. */
  function OrderBy(a: int, b: int): (r: int)
    ensures r == 1 <==> a > b
    ensures r == -1 <==> a < b
    ensures r == 0 <==> a == b
  {
    if a > b then 1 else if b > a then -1 else 0
  }

  /** `orderByDescending(property)` on two numeric property values: `a > b ? -1 : b > a ? 1 : 0`. */
  function OrderByDescending(a: int, b: int): (r: int)
    ensures r == -1 <==> a > b
    ensures r == 1 <==> a < b
    ensures r == 0 <==> a == b
  {
    if a > b then -1 else if b > a then 1 else 0
  }

  /** Swapping the arguments negates the comparison. */
  lemma OrderByAntisymmetric(a: int, b: int)
    ensures OrderBy(a, b) == -OrderBy(b, a)
  {
  }

  /** The descending comparator is the ascending one negated, which is the ascending one with its arguments swapped. */
  lemma OrderByDescendingReverses(a: int, b: int)
    ensures OrderByDescending(a, b) == -OrderBy(a, b)
    ensures OrderByDescending(a, b) == OrderBy(b, a)
  {
  }

  /** The comparator is consistent as `Array.sort` requires: "not after" is transitive. */
  lemma OrderByTransitive(a: int, b: int, c: int)
    requires OrderBy(a, b) <= 0 && OrderBy(b, c) <= 0
    ensures OrderBy(a, c) <= 0
  {
  }

  /** Whether `s` is in ascending order by OrderBy. */
  predicate SortedBy(s: seq<int>)
  {
    forall i, j :: 0 <= i < j < |s| ==> OrderBy(s[i], s[j]) <= 0
  }

  /** Whether `s` is in order by OrderByDescending. */
  predicate SortedByDescending(s: seq<int>)
  {
    forall i, j :: 0 <= i < j < |s| ==> OrderByDescending(s[i], s[j]) <= 0
  }

  function Reversed(s: seq<int>): (r: seq<int>)
    ensures |r| == |s|
    ensures forall i :: 0 <= i < |s| ==> r[i] == s[|s| - 1 - i]
  {
    if s == [] then [] else Reversed(s[1..]) + [s[0]]
  }

  /** A sequence sorted by orderBy, read backwards, is sorted by orderByDescending, and back. */
  lemma {:induction false} SortedByReversed(s: seq<int>)
    ensures SortedBy(s) <==> SortedByDescending(Reversed(s))
  {
    var r := Reversed(s);
    if SortedBy(s) {
      forall i, j | 0 <= i < j < |r|
        ensures OrderByDescending(r[i], r[j]) <= 0
      {
        assert OrderBy(s[|s| - 1 - j], s[|s| - 1 - i]) <= 0;
      }
    }
    if SortedByDescending(r) {
      forall i, j | 0 <= i < j < |s|
        ensures OrderBy(s[i], s[j]) <= 0
      {
        assert r[|s| - 1 - j] == s[j] && r[|s| - 1 - i] == s[i];
        assert OrderByDescending(r[|s| - 1 - j], r[|s| - 1 - i]) <= 0;
      }
    }
  }

  /**
   * `ucFirst(value)`: the first character upper-cased, the rest kept. On the
   * empty string `charAt(0)` is "" and so is the result.
   */
  function UcFirst(value: string): (r: string)
    ensures |r| == |value|
    ensures |value| > 0 ==> r[0] == UpperChar(value[0])
    ensures |value| > 0 ==> r[1..] == value[1..]
    ensures value == [] ==> r == []
  {
    if value == [] then [] else ToUpper(value[..1]) + value[1..]
  }

  /** ucFirst is idempotent. */
  lemma UcFirstIdempotent(value: string)
    ensures UcFirst(UcFirst(value)) == UcFirst(value)
  {
    if value != [] {
      var r := UcFirst(value);
      assert UpperChar(r[0]) == r[0];
      assert UcFirst(r)[1..] == r[1..];
      assert UcFirst(r)[0] == r[0];
    }
  }
}
