/**
 * The monthly order index: the `yymm` date prefix followed by a counter that
 * continues from the largest index stored this month (`generateIndex`).
 * The clock and the database are not modelled: the prefix `yymm` and the result
 * of the `MAX(r.index)` query over this month's orders are parameters.
 */
module OrderIndex {

  import opened Options
  import opened PhpStrings

  /** The strings PHP treats as false: the empty string and "0". */
  predicate Falsy(v: string)
  {
    |v| == 0 || (|v| == 1 && v[0] == '0')
  }

  /** Both falsy strings read as the integer 0, so replacing them by 0 does not change the counter read from them. */
  lemma FalsyReadsZero(v: string)
    requires Falsy(v)
    ensures IntCast(v) == 0
  {
    if |v| == 1 {
      IntCastOfDigits(v);
      assert v[..0] == [];
    }
  }

  /** `MAX(r.index) ?: 0` cast to a string: no row (`null`) and a falsy string become "0". */
  function QueryAsString(monthMax: Option<string>): (s: string)
    ensures |s| >= 1
    ensures monthMax.None? || Falsy(monthMax.value) ==> s == "0"
    ensures monthMax.Some? && !Falsy(monthMax.value) ==> s == monthMax.value
  {
    match monthMax
    case None => "0"
    case Some(v) => if Falsy(v) then "0" else v
  }

  /** The counter of the next order: the last three characters of the stored maximum, read as an integer, plus one. */
  function NextNumber(monthMax: Option<string>): (n: nat)
    ensures n >= 1
  {
    IntCast(SubstrFromEnd(QueryAsString(monthMax), 3)) + 1
  }

  /** `generateIndex`: the date prefix followed by the next counter printed with `%03d`. */
  function NextIndex(yymm: string, monthMax: Option<string>): (index: string)
    ensures |index| >= |yymm| + 3 && index[..|yymm|] == yymm
    ensures AllDigits(index[|yymm|..]) && ValueOf(index[|yymm|..]) == NextNumber(monthMax)
  {
    var n := NextNumber(monthMax);
    Sprintf03RoundTrip(n);
    Sprintf03Width(n);
    assert (yymm + Sprintf03(n))[|yymm|..] == Sprintf03(n);
    yymm + Sprintf03(n)
  }

  // ---------------------------------------------------------------------------
  // One allocation

  /** A query result that reads as "0" restarts the counter at 1. */
  lemma NextFromZero(yymm: string, monthMax: Option<string>)
    requires monthMax.None? || Falsy(monthMax.value)
    ensures NextIndex(yymm, monthMax) == yymm + Sprintf03(1)
  {
    var q := QueryAsString(monthMax);
    FalsyReadsZero(q);
    assert SubstrFromEnd(q, 3) == q;
    assert NextNumber(monthMax) == 1;
  }

  /** The first order of a month (no row, or a falsy maximum) gets the counter 001. */
  lemma FirstOrderOfMonth(yymm: string)
    ensures NextIndex(yymm, None) == yymm + "001"
    ensures NextIndex(yymm, Some("")) == yymm + "001"
    ensures NextIndex(yymm, Some("0")) == yymm + "001"
  {
    Sprintf03Digits(1);
    assert Sprintf03(1) == "001";
    NextFromZero(yymm, None);
    NextFromZero(yymm, Some(""));
    NextFromZero(yymm, Some("0"));
  }

  /** A stored maximum that ends in three digits continues from the number those digits denote. */
  lemma NextAfterStoredIndex(yymm: string, stored: string)
    requires |stored| >= 3 && AllDigits(stored[|stored| - 3..])
    ensures NextNumber(Some(stored)) == ValueOf(stored[|stored| - 3..]) + 1
    ensures NextIndex(yymm, Some(stored)) == yymm + Sprintf03(ValueOf(stored[|stored| - 3..]) + 1)
  {
    assert !Falsy(stored);
    IntCastOfDigits(stored[|stored| - 3..]);
  }

  /** An index whose counter is n (below 1000) is followed by the counter n + 1, under any earlier prefix. */
  lemma NextIndexIncrements(yymm: string, prefix: string, n: nat)
    requires n < 1000
    ensures NextIndex(yymm, Some(prefix + Sprintf03(n))) == yymm + Sprintf03(n + 1)
  {
    var stored := prefix + Sprintf03(n);
    Sprintf03Width(n);
    assert stored[|stored| - 3..] == Sprintf03(n);
    Sprintf03RoundTrip(n);
    NextAfterStoredIndex(yymm, stored);
  }

  /**
   * The counter keeps its three characters while the previous one is below 999;
   * there is no wrap-around, so after 999 comes the four-character "1000".
   */
  lemma SuffixWidth(yymm: string, n: nat)
    requires n < 1000
    ensures |NextIndex(yymm, Some(yymm + Sprintf03(n)))| == |yymm| + 3 <==> n < 999
    ensures n == 999 ==> NextIndex(yymm, Some(yymm + Sprintf03(n))) == yymm + "1000"
  {
    NextIndexIncrements(yymm, yymm, n);
    Sprintf03Width(n + 1);
    if n == 999 {
      Sprintf03Of1000();
    }
  }

  /** Under one prefix, index strings with counters below 1000 compare as their counters do. */
  lemma IndexOrder(yymm: string, n: nat, m: nat)
    requires n < 1000 && m < 1000
    ensures LexLess(yymm + Sprintf03(n), yymm + Sprintf03(m)) <==> n < m
  {
    LexLessCommonPrefix(yymm, Sprintf03(n), Sprintf03(m));
    Sprintf03Order(n, m);
  }

  /** Below 999 the new index is strictly greater, as a string, than the maximum it was computed from. */
  lemma NextIndexIsNewMaximum(yymm: string, n: nat)
    requires n < 999
    ensures LexLess(yymm + Sprintf03(n), NextIndex(yymm, Some(yymm + Sprintf03(n))))
  {
    NextIndexIncrements(yymm, yymm, n);
    IndexOrder(yymm, n, n + 1);
  }

  /** The index "yymm1000" sorts below "yymm999". */
  lemma ThousandSortsLow(yymm: string)
    ensures LexLess(yymm + "1000", yymm + "999")
    ensures !LexLess(yymm + "999", yymm + "1000")
  {
    LexLessCommonPrefix(yymm, "1000", "999");
    LexLessCommonPrefix(yymm, "999", "1000");
  }

  /** After "yymm999" comes "yymm1000". */
  lemma NextAfter999(yymm: string)
    ensures NextIndex(yymm, Some(yymm + "999")) == yymm + "1000"
  {
    Sprintf03Of999();
    NextIndexIncrements(yymm, yymm, 999);
    Sprintf03Of1000();
  }

  /**
   * Reading "yymm1000" back takes its last three characters "000", so the counter
   * restarts at 001. Under byte-wise order `MAX` returns "yymm1000" only when no
   * row of the month from "yymm101" up (other than "yymm1000" itself) is stored,
   * for instance after such orders were deleted; under a numeric comparison of
   * the column it would be returned right after the 1000th order.
   */
  lemma ThousandRestartsCounter(yymm: string)
    ensures NextIndex(yymm, Some(yymm + "1000")) == yymm + "001"
  {
    var s := yymm + "1000";
    assert s[|s| - 3..] == "000";
    NextAfterStoredIndex(yymm, s);
    assert "000" == Zeros(3);
    ValueOfZeros(3);
    Sprintf03Digits(1);
  }

  // ---------------------------------------------------------------------------
  // A month of allocations

  /** `MAX(r.index)` over the given rows under the string order; None when there are no rows. */
  function MaxIndex(indices: seq<string>): (m: Option<string>)
    ensures m.None? <==> indices == []
    ensures m.Some? ==> m.value in indices
    ensures m.Some? ==> forall i :: 0 <= i < |indices| ==> !LexLess(m.value, indices[i])
  {
    if indices == [] then None
    else
      var rest := MaxIndex(indices[..|indices| - 1]);
      var last := indices[|indices| - 1];
      if rest.None? || LexLess(rest.value, last) then
        LexLessIrreflexive(last);
        assert forall i :: 0 <= i < |indices| - 1 ==> !LexLess(last, indices[i]) by {
          forall i | 0 <= i < |indices| - 1
            ensures !LexLess(last, indices[i])
          {
            assert indices[i] == indices[..|indices| - 1][i];
            if LexLess(last, indices[i]) {
              LexLessTransitive(rest.value, last, indices[i]);
            }
          }
        }
        Some(last)
      else
        assert forall i :: 0 <= i < |indices| - 1 ==> indices[i] == indices[..|indices| - 1][i];
        rest
  }

  /** Appending an index that does not sort above the maximum leaves the maximum as it is. */
  lemma MaxIndexAppendLower(indices: seq<string>, x: string)
    requires MaxIndex(indices).Some? && !LexLess(MaxIndex(indices).value, x)
    ensures MaxIndex(indices + [x]) == MaxIndex(indices)
  {
    assert (indices + [x])[..|indices|] == indices;
  }

  /** `generateIndex` for the month `yymm`, as a function of the query result: every index it gives carries the prefix. */
  function GenerateIndex(yymm: string): (allocate: Option<string> -> string)
    ensures forall m :: |allocate(m)| >= |yymm| + 3 && allocate(m)[..|yymm|] == yymm
  {
    monthMax => NextIndex(yymm, monthMax)
  }

  /**
   * The indices the first `k` orders of a month receive when each one is
   * allocated by `allocate` from the `MAX` of the indices stored before it.
   */
  function Allocations(allocate: Option<string> -> string, k: nat): (s: seq<string>)
    ensures |s| == k
  {
    if k == 0 then []
    else
      var before := Allocations(allocate, k - 1);
      before + [allocate(MaxIndex(before))]
  }

  /** An allocator that starts the month at 001 and follows counter n with n + 1 below 999. */
  predicate CountsUp(allocate: Option<string> -> string, yymm: string)
  {
    && allocate(None) == yymm + Sprintf03(1)
    && forall n: nat :: 1 <= n < 999 ==> allocate(Some(yymm + Sprintf03(n))) == yymm + Sprintf03(n + 1)
  }

  lemma GenerateIndexCountsUp(yymm: string)
    ensures CountsUp(GenerateIndex(yymm), yymm)
  {
    NextFromZero(yymm, None);
    forall n: nat | 1 <= n < 999
      ensures GenerateIndex(yymm)(Some(yymm + Sprintf03(n))) == yymm + Sprintf03(n + 1)
    {
      NextIndexIncrements(yymm, yymm, n);
    }
  }

  /** As an allocator, `generateIndex` follows "yymm999" with "yymm1000". */
  lemma GenerateIndexAfter999(yymm: string)
    ensures GenerateIndex(yymm)(Some(yymm + "999")) == yymm + "1000"
  {
    NextAfter999(yymm);
    assert GenerateIndex(yymm)(Some(yymm + "999")) == NextIndex(yymm, Some(yymm + "999"));
  }

  /** An allocator that counts up numbers the first 999 orders 001, 002, ...; the latest is the maximum. */
  lemma {:induction false} AllocationsConsecutive(allocate: Option<string> -> string, yymm: string, k: nat)
    requires CountsUp(allocate, yymm) && k < 1000
    ensures forall i :: 0 <= i < k ==> Allocations(allocate, k)[i] == yymm + Sprintf03(i + 1)
    ensures k > 0 ==> MaxIndex(Allocations(allocate, k)) == Some(yymm + Sprintf03(k))
  {
    if k > 0 {
      var before := Allocations(allocate, k - 1);
      AllocationsConsecutive(allocate, yymm, k - 1);
      var s := Allocations(allocate, k);
      if k > 1 {
        IndexOrder(yymm, k - 1, k);
      }
      assert s[..k - 1] == before;
    }
  }

  /** The first 999 orders of a month are numbered 001, 002, ... in order of placement. */
  lemma MonthIndicesConsecutive(yymm: string, k: nat)
    requires k < 1000
    ensures forall i :: 0 <= i < k ==> Allocations(GenerateIndex(yymm), k)[i] == yymm + Sprintf03(i + 1)
  {
    GenerateIndexCountsUp(yymm);
    AllocationsConsecutive(GenerateIndex(yymm), yymm, k);
  }

  /** Under one prefix, different counters give different index strings. */
  lemma IndexInjective(yymm: string, n: nat, m: nat)
    requires yymm + Sprintf03(n) == yymm + Sprintf03(m)
    ensures n == m
  {
    var a, b := yymm + Sprintf03(n), yymm + Sprintf03(m);
    assert a[|yymm|..] == Sprintf03(n) && b[|yymm|..] == Sprintf03(m);
    Sprintf03RoundTrip(n);
    Sprintf03RoundTrip(m);
  }

  /** Under an allocator that counts up, up to 999 orders of a month never share an index. */
  lemma AllocationsDistinct(allocate: Option<string> -> string, yymm: string, k: nat)
    requires CountsUp(allocate, yymm) && k < 1000
    ensures forall i, j :: 0 <= i < j < k ==> Allocations(allocate, k)[i] != Allocations(allocate, k)[j]
  {
    var s := Allocations(allocate, k);
    AllocationsConsecutive(allocate, yymm, k);
    forall i, j | 0 <= i < j < k
      ensures s[i] != s[j]
    {
      if s[i] == s[j] {
        IndexInjective(yymm, i + 1, j + 1);
      }
    }
  }

  /** Up to 999 orders of a month, no two receive the same index. */
  lemma MonthIndicesDistinct(yymm: string, k: nat)
    requires k < 1000
    ensures forall i, j :: 0 <= i < j < k ==> Allocations(GenerateIndex(yymm), k)[i] != Allocations(GenerateIndex(yymm), k)[j]
  {
    GenerateIndexCountsUp(yymm);
    AllocationsDistinct(GenerateIndex(yymm), yymm, k);
  }

  /** The 1000th order gets "yymm1000", which sorts below "yymm999", so `MAX` stays at "yymm999". */
  lemma AllocationsAt1000(allocate: Option<string> -> string, yymm: string)
    requires CountsUp(allocate, yymm) && allocate(Some(yymm + "999")) == yymm + "1000"
    ensures MaxIndex(Allocations(allocate, 1000)) == Some(yymm + "999")
    ensures Allocations(allocate, 1000)[999] == yymm + "1000"
  {
    var before := Allocations(allocate, 999);
    var s := Allocations(allocate, 1000);
    AllocationsConsecutive(allocate, yymm, 999);
    Sprintf03Of999();
    assert MaxIndex(before) == Some(yymm + "999");
    assert s == before + [yymm + "1000"];
    ThousandSortsLow(yymm);
    assert s[..999] == before;
  }

  /**
   * An allocator that counts up and gives "yymm1000" after "yymm999": from the
   * 1000th order on, `MAX` stays at "yymm999", so every later order gets "yymm1000".
   */
  lemma {:induction false} AllocationsRepeatAfter999(allocate: Option<string> -> string, yymm: string, k: nat)
    requires CountsUp(allocate, yymm) && allocate(Some(yymm + "999")) == yymm + "1000"
    requires k >= 1000
    ensures MaxIndex(Allocations(allocate, k)) == Some(yymm + "999")
    ensures forall i :: 999 <= i < k ==> Allocations(allocate, k)[i] == yymm + "1000"
  {
    if k == 1000 {
      AllocationsAt1000(allocate, yymm);
    } else {
      var before := Allocations(allocate, k - 1);
      var s := Allocations(allocate, k);
      AllocationsRepeatAfter999(allocate, yymm, k - 1);
      assert s == before + [yymm + "1000"];
      forall i | 999 <= i < k
        ensures s[i] == yymm + "1000"
      {
        if i < k - 1 {
          assert s[i] == before[i];
        }
      }
      ThousandSortsLow(yymm);
      MaxIndexAppendLower(before, yymm + "1000");
    }
  }

  /**
   * From the 1000th order of a month on, `MAX` keeps returning "yymm999" (because
   * "yymm1000" sorts below it), so every further order receives "yymm1000" again.
   */
  lemma MonthIndicesRepeatAfter999(yymm: string, k: nat)
    requires k >= 1000
    ensures MaxIndex(Allocations(GenerateIndex(yymm), k)) == Some(yymm + "999")
    ensures forall i :: 999 <= i < k ==> Allocations(GenerateIndex(yymm), k)[i] == yymm + "1000"
  {
    GenerateIndexCountsUp(yymm);
    GenerateIndexAfter999(yymm);
    AllocationsRepeatAfter999(GenerateIndex(yymm), yymm, k);
  }
}
