/**
 * The standard-library string operations the derive relies on: `usize`,
 * `to_string` of a counter, `str::parse::<usize>`, and ASCII case mapping.
 */
module Text {
  import opened Wrappers

  /** `usize::MAX + 1` on a 64-bit host. */
  const USIZE_BOUND: nat := 0x1_0000_0000_0000_0000

  type Usize = n: nat | n < USIZE_BOUND

  predicate IsDigit(c: char) {
    '0' <= c <= '9'
  }

  predicate AllDigits(s: string) {
    forall i :: 0 <= i < |s| ==> IsDigit(s[i])
  }

  function DigitChar(d: nat): (c: char)
    requires d < 10
    ensures IsDigit(c) && c as int - '0' as int == d
  {
    ('0' as int + d) as char
  }

  /** The number a string of decimal digits denotes (most significant first). */
  function Value(s: string): nat
    requires AllDigits(s)
    decreases |s|
  {
    if s == [] then 0
    else Value(s[..|s| - 1]) * 10 + (s[|s| - 1] as int - '0' as int)
  }

  /** `n.to_string()`: decimal digits without leading zeros. */
  function ToDecimal(n: nat): (s: string)
    ensures |s| > 0 && AllDigits(s)
    ensures |s| > 1 ==> s[0] != '0'
    decreases n
  {
    if n < 10 then [DigitChar(n)] else ToDecimal(n / 10) + [DigitChar(n % 10)]
  }

  lemma {:induction false} ValueOfToDecimal(n: nat)
    ensures Value(ToDecimal(n)) == n
    decreases n
  {
    if n >= 10 {
      var s := ToDecimal(n);
      assert s[..|s| - 1] == ToDecimal(n / 10);
      ValueOfToDecimal(n / 10);
    }
  }

  /** Different counters print differently. */
  lemma ToDecimalInjective(m: nat, n: nat)
    requires ToDecimal(m) == ToDecimal(n)
    ensures m == n
  {
    ValueOfToDecimal(m);
    ValueOfToDecimal(n);
  }

  /**
   * `s.parse::<usize>()`: an optional leading `+`, then at least one decimal
   * digit, and a value that fits in `usize`.
   */
  function ParseUsize(s: string): (r: Option<Usize>)
    ensures |s| > 0 && AllDigits(s) ==> r == if Value(s) < USIZE_BOUND then Some(Value(s)) else None
    ensures |s| == 0 ==> r == None
  {
    var digits := if |s| > 1 && s[0] == '+' then s[1..] else s;
    if |digits| == 0 || !AllDigits(digits) then None
    else if Value(digits) < USIZE_BOUND then Some(Value(digits))
    else None
  }

  /** Printing a number and parsing it back gives the number exactly when it fits in `usize`. */
  lemma ParseUsizeOfToDecimal(n: nat)
    ensures n < USIZE_BOUND ==> ParseUsize(ToDecimal(n)) == Some(n)
    ensures n >= USIZE_BOUND ==> ParseUsize(ToDecimal(n)) == None
  {
    ValueOfToDecimal(n);
  }

  function AsciiUpperChar(c: char): char {
    if 'a' <= c <= 'z' then (c as int - 32) as char else c
  }

  function AsciiLowerChar(c: char): char {
    if 'A' <= c <= 'Z' then (c as int + 32) as char else c
  }

  /** `to_ascii_uppercase`: maps `a`..`z` to `A`..`Z`, leaves every other character alone. */
  function AsciiUpper(s: string): string {
    seq(|s|, i requires 0 <= i < |s| => AsciiUpperChar(s[i]))
  }

  /** `to_ascii_lowercase`: maps `A`..`Z` to `a`..`z`, leaves every other character alone. */
  function AsciiLower(s: string): string {
    seq(|s|, i requires 0 <= i < |s| => AsciiLowerChar(s[i]))
  }

  lemma AsciiUpperKeepsDigits(s: string)
    requires AllDigits(s)
    ensures AsciiUpper(s) == s
  {
  }
}
