/**
 * The few PHP string primitives the order index is built from: `substr($s, -k)`,
 * the `(int)` cast of a string, `sprintf('%03d', $n)`, and the byte-wise string
 * order under which the database computes `MAX` over a string column.
 */
module PhpStrings {

  predicate IsDigit(c: char)
  {
    '0' <= c <= '9'
  }

  predicate AllDigits(s: string)
  {
    forall i :: 0 <= i < |s| ==> IsDigit(s[i])
  }

  function DigitChar(d: nat): (c: char)
    requires d < 10
    ensures IsDigit(c) && c as int - '0' as int == d
  {
    ('0' as int + d) as char
  }

  /** The number an all-digit string denotes; leading zeros are allowed. */
  function ValueOf(s: string): nat
    requires AllDigits(s)
  {
    if s == [] then 0 else ValueOf(s[..|s| - 1]) * 10 + (s[|s| - 1] as int - '0' as int)
  }

  /** The decimal representation of `n` without leading zeros, as `%d` prints it. */
  function ToDecimal(n: nat): (s: string)
    ensures 1 <= |s| && AllDigits(s)
  {
    if n < 10 then [DigitChar(n)] else ToDecimal(n / 10) + [DigitChar(n % 10)]
  }

  /** `k` zero digits. */
  function Zeros(k: nat): (z: string)
    ensures |z| == k && forall i :: 0 <= i < k ==> z[i] == '0'
  {
    if k == 0 then [] else Zeros(k - 1) + ['0']
  }

  /** `sprintf('%03d', n)` for a non-negative `n`: the decimal digits, left-padded with zeros to width 3. */
  function Sprintf03(n: nat): (s: string)
    ensures AllDigits(s)
  {
    var d := ToDecimal(n);
    if |d| >= 3 then d else Zeros(3 - |d|) + d
  }

  /** `substr(s, -k)`: the last `k` characters, or all of `s` when it is shorter (PHP 8 semantics). */
  function SubstrFromEnd(s: string, k: nat): (t: string)
    ensures |t| == if |s| <= k then |s| else k
    ensures t == s[|s| - |t|..]
  {
    if |s| <= k then s else s[|s| - k..]
  }

  /** The longest prefix of `s` made of decimal digits. */
  function LeadingDigits(s: string): (p: string)
    ensures AllDigits(p) && |p| <= |s| && p == s[..|p|]
    ensures |p| < |s| ==> !IsDigit(s[|p|])
  {
    if s == [] || !IsDigit(s[0]) then [] else [s[0]] + LeadingDigits(s[1..])
  }

  /** `(int)$s` for a string: the value of its leading decimal digits, 0 when there are none. */
  function IntCast(s: string): (n: nat)
    ensures s == [] || !IsDigit(s[0]) ==> n == 0
  {
    ValueOf(LeadingDigits(s))
  }

  /**
   * Byte-wise string order, as a binary collation compares two index strings:
   * a proper prefix sorts below the longer string.
   */
  predicate LexLess(a: string, b: string)
    ensures |a| < |b| && a == b[..|a|] ==> LexLess(a, b)
  {
    if a == [] then b != []
    else if b == [] then false
    else if a[0] == b[0] then LexLess(a[1..], b[1..])
    else a[0] < b[0]
  }

  // ---------------------------------------------------------------------------
  // Decimal round trips

  lemma {:induction false} ValueOfToDecimal(n: nat)
    ensures ValueOf(ToDecimal(n)) == n
  {
    if n >= 10 {
      var t := ToDecimal(n / 10);
      var s := ToDecimal(n);
      assert s == t + [DigitChar(n % 10)];
      assert s[..|s| - 1] == t;
      ValueOfToDecimal(n / 10);
    }
  }

  lemma {:induction false} ValueOfZeros(k: nat)
    ensures ValueOf(Zeros(k)) == 0
  {
    if k > 0 {
      assert Zeros(k)[..k - 1] == Zeros(k - 1);
      ValueOfZeros(k - 1);
    }
  }

  /** Leading zeros do not change the value of a digit string. */
  lemma {:induction false} ValueOfLeadingZeros(k: nat, s: string)
    requires AllDigits(s)
    ensures AllDigits(Zeros(k) + s) && ValueOf(Zeros(k) + s) == ValueOf(s)
  {
    var z := Zeros(k) + s;
    if s == [] {
      assert z == Zeros(k);
      ValueOfZeros(k);
    } else {
      assert z[..|z| - 1] == Zeros(k) + s[..|s| - 1];
      ValueOfLeadingZeros(k, s[..|s| - 1]);
    }
  }

  /** Reading back what `sprintf('%03d', n)` printed gives `n`. */
  lemma Sprintf03RoundTrip(n: nat)
    ensures ValueOf(Sprintf03(n)) == n
  {
    var d := ToDecimal(n);
    ValueOfToDecimal(n);
    if |d| < 3 {
      ValueOfLeadingZeros(3 - |d|, d);
    }
  }

  lemma {:induction false} LeadingDigitsOfDigits(s: string)
    requires AllDigits(s)
    ensures LeadingDigits(s) == s
  {
    if s != [] {
      LeadingDigitsOfDigits(s[1..]);
    }
  }

  /** On an all-digit string the `(int)` cast reads the whole string. */
  lemma IntCastOfDigits(s: string)
    requires AllDigits(s)
    ensures IntCast(s) == ValueOf(s)
  {
    LeadingDigitsOfDigits(s);
  }

  // ---------------------------------------------------------------------------
  // Width of the padded counter

  lemma {:induction false} ToDecimalLength(n: nat)
    ensures n < 10 ==> |ToDecimal(n)| == 1
    ensures 10 <= n < 100 ==> |ToDecimal(n)| == 2
    ensures 100 <= n < 1000 ==> |ToDecimal(n)| == 3
    ensures 1000 <= n ==> |ToDecimal(n)| >= 4
  {
    if n >= 10 {
      ToDecimalLength(n / 10);
    }
  }

  /** The padded counter is exactly three characters wide precisely below 1000. */
  lemma Sprintf03Width(n: nat)
    ensures |Sprintf03(n)| == 3 <==> n < 1000
    ensures |Sprintf03(n)| >= 3
  {
    ToDecimalLength(n);
  }

  /** Below 1000 the padded counter is the hundreds, tens and units digit. */
  lemma Sprintf03Digits(n: nat)
    requires n < 1000
    ensures Sprintf03(n) == [DigitChar(n / 100), DigitChar(n / 10 % 10), DigitChar(n % 10)]
  {
    if n < 10 {
      assert ToDecimal(n) == [DigitChar(n)];
    } else if n < 100 {
      assert ToDecimal(n / 10) == [DigitChar(n / 10)];
      assert ToDecimal(n) == [DigitChar(n / 10), DigitChar(n % 10)];
    } else {
      var t := n / 10;
      assert t / 10 == n / 100;
      assert ToDecimal(t / 10) == [DigitChar(n / 100)];
      assert ToDecimal(t) == [DigitChar(n / 100), DigitChar(t % 10)];
      assert ToDecimal(n) == [DigitChar(n / 100), DigitChar(n / 10 % 10), DigitChar(n % 10)];
    }
  }

  lemma Sprintf03Of999()
    ensures Sprintf03(999) == "999"
  {
    Sprintf03Digits(999);
  }

  lemma Sprintf03Of1000()
    ensures Sprintf03(1000) == "1000"
  {
    assert ToDecimal(1) == "1";
    assert ToDecimal(10) == "10";
    assert ToDecimal(100) == "100";
    assert ToDecimal(1000) == "1000";
  }

  // ---------------------------------------------------------------------------
  // String order

  lemma {:induction false} LexLessIrreflexive(a: string)
    ensures !LexLess(a, a)
  {
    if a != [] {
      LexLessIrreflexive(a[1..]);
    }
  }

  lemma {:induction false} LexLessTransitive(a: string, b: string, c: string)
    requires LexLess(a, b) && LexLess(b, c)
    ensures LexLess(a, c)
  {
    if a != [] && b != [] && c != [] && a[0] == b[0] && b[0] == c[0] {
      LexLessTransitive(a[1..], b[1..], c[1..]);
    }
  }

  /** A common prefix does not change how two strings compare. */
  lemma {:induction false} LexLessCommonPrefix(p: string, a: string, b: string)
    ensures LexLess(p + a, p + b) <==> LexLess(a, b)
  {
    if p == [] {
      assert p + a == a && p + b == b;
    } else {
      assert (p + a)[0] == (p + b)[0];
      assert (p + a)[1..] == p[1..] + a;
      assert (p + b)[1..] == p[1..] + b;
      LexLessCommonPrefix(p[1..], a, b);
    }
  }

  lemma DigitCharOrder(x: nat, y: nat)
    requires x < 10 && y < 10
    ensures DigitChar(x) < DigitChar(y) <==> x < y
    ensures DigitChar(x) == DigitChar(y) <==> x == y
  {
  }

  /** Comparing three-character strings unfolds to comparing their characters in turn. */
  lemma LexLessThree(a: string, b: string)
    requires |a| == 3 && |b| == 3
    ensures LexLess(a, b) <==>
      a[0] < b[0] || (a[0] == b[0] && (a[1] < b[1] || (a[1] == b[1] && a[2] < b[2])))
  {
    var a1, b1 := a[1..], b[1..];
    var a2, b2 := a1[1..], b1[1..];
    assert a2[1..] == [] && b2[1..] == [];
    assert LexLess(a2, b2) <==> a[2] < b[2];
    assert LexLess(a1, b1) <==> a[1] < b[1] || (a[1] == b[1] && LexLess(a2, b2));
    assert LexLess(a, b) <==> a[0] < b[0] || (a[0] == b[0] && LexLess(a1, b1));
  }

  lemma ThreeDigitOrder(n: nat, m: nat)
    requires n < 1000 && m < 1000
    ensures n < m <==>
      n / 100 < m / 100 || (n / 100 == m / 100 &&
        (n / 10 % 10 < m / 10 % 10 || (n / 10 % 10 == m / 10 % 10 && n % 10 < m % 10)))
  {
    assert n == 10 * (n / 10) + n % 10;
    assert m == 10 * (m / 10) + m % 10;
    assert n / 10 == 10 * (n / 100) + n / 10 % 10;
    assert m / 10 == 10 * (m / 100) + m / 10 % 10;
  }

  /** Below 1000, comparing padded counters as strings agrees with comparing the numbers. */
  lemma Sprintf03Order(n: nat, m: nat)
    requires n < 1000 && m < 1000
    ensures LexLess(Sprintf03(n), Sprintf03(m)) <==> n < m
  {
    Sprintf03Digits(n);
    Sprintf03Digits(m);
    DigitCharOrder(n / 100, m / 100);
    DigitCharOrder(n / 10 % 10, m / 10 % 10);
    DigitCharOrder(n % 10, m % 10);
    LexLessThree(Sprintf03(n), Sprintf03(m));
    ThreeDigitOrder(n, m);
  }
}
