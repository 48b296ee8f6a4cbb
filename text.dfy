/**
 * The few JavaScript string operations the components rely on, for the
 * values they are applied to: `Number.prototype.toString()` on a
 * non-negative integer, `padStart(2, '0')` and `slice` with non-negative
 * bounds; and a first-index search, which only the reading-back of a clock
 * face uses.
 */
module Text {
  import opened Wrappers

  predicate IsDigit(c: char) {
    '0' <= c <= '9'
  }

  predicate AllDigits(s: string) {
    forall i :: 0 <= i < |s| ==> IsDigit(s[i])
  }

  function DigitValue(c: char): (d: nat)
    requires IsDigit(c)
    ensures d < 10
  {
    c as int - '0' as int
  }

  function DigitChar(d: nat): (c: char)
    requires d < 10
    ensures IsDigit(c) && DigitValue(c) == d
  {
    ('0' as int + d) as char
  }

  /** The number a string of decimal digits denotes (most significant digit first). */
  function DecimalValue(s: string): nat
    requires AllDigits(s)
  {
    if s == [] then 0 else 10 * DecimalValue(s[..|s| - 1]) + DigitValue(s[|s| - 1])
  }

  /** `n.toString()` for a non-negative integer: its decimal digits, without leading zeros. */
  function Decimal(n: nat): (s: string)
    ensures 1 <= |s| && AllDigits(s)
    ensures DecimalValue(s) == n
    ensures |s| > 1 ==> s[0] != '0'
    ensures n < 10 ==> |s| == 1
    ensures 10 <= n < 100 ==> |s| == 2
    decreases n
  {
    if n < 10 then [DigitChar(n)] else Decimal(n / 10) + [DigitChar(n % 10)]
  }

  /** Prefixing a zero does not change the number a digit string denotes. */
  lemma {:induction false} LeadingZero(s: string)
    requires AllDigits(s)
    ensures AllDigits("0" + s) && DecimalValue("0" + s) == DecimalValue(s)
  {
    if s != [] {
      var init := s[..|s| - 1];
      LeadingZero(init);
      assert ("0" + s)[..|"0" + s| - 1] == "0" + init;
    }
  }

  /** `s.padStart(2, '0')`. */
  function PadStart2(s: string): (r: string)
    ensures |r| == if |s| < 2 then 2 else |s|
    ensures r[|r| - |s|..] == s
    ensures forall i :: 0 <= i < |r| - |s| ==> r[i] == '0'
  {
    if |s| >= 2 then s else if |s| == 1 then "0" + s else "00"
  }

  /** Padding a digit string keeps it a digit string denoting the same number. */
  lemma PadStart2Value(s: string)
    requires AllDigits(s)
    ensures AllDigits(PadStart2(s)) && DecimalValue(PadStart2(s)) == DecimalValue(s)
  {
    if |s| == 1 {
      LeadingZero(s);
    } else if |s| == 0 {
      LeadingZero("0");
      assert PadStart2(s) == "0" + "0";
    }
  }

  /**
   * The first index of a character, or `None` when it does not occur.  No
   * component calls a string search; `ParseTime`, the reading-back of a
   * clock face, is the only user.
   */
  function IndexOf(s: string, c: char): (r: Option<nat>)
    ensures r.None? <==> c !in s
    ensures r.Some? ==> r.value < |s| && s[r.value] == c && c !in s[..r.value]
  {
    if s == [] then None
    else if s[0] == c then Some(0)
    else match IndexOf(s[1..], c)
      case None => None
      case Some(i) => (assert s[..i + 1] == [s[0]] + s[1..][..i]; Some(i + 1))
  }

  /** The index of a character that no earlier character equals is what `IndexOf` finds. */
  lemma {:induction false} IndexOfFirst(s: string, c: char, k: nat)
    requires k < |s| && s[k] == c
    requires forall j :: 0 <= j < k ==> s[j] != c
    ensures IndexOf(s, c) == Some(k)
  {
    if k > 0 {
      IndexOfFirst(s[1..], c, k - 1);
    }
  }

  /** `s.slice(begin, end)` for non-negative bounds: both are clamped to the length. */
  function Slice(s: string, begin: nat, end: nat): (r: string)
    ensures |r| <= |s|
    ensures begin <= end <= |s| ==> r == s[begin..end]
    ensures begin <= |s| <= end ==> r == s[begin..]
    ensures end <= begin || |s| <= begin ==> r == ""
  {
    var b := if begin < |s| then begin else |s|;
    var e := if end < |s| then end else |s|;
    if b < e then s[b..e] else ""
  }

  /** Two adjacent slices make up the slice that spans both. */
  lemma SliceSplit(s: string, i: nat, j: nat, k: nat)
    requires i <= j <= k
    ensures Slice(s, i, j) + Slice(s, j, k) == Slice(s, i, k)
  {
    if k <= |s| {
      assert s[i..k] == s[i..j] + s[j..k];
    } else if j <= |s| {
      assert s[i..] == s[i..j] + s[j..];
    }
  }
}
