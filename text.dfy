/**
 * The two string conversions the employee renderer relies on: Python's
 * `sep.join(items)` and `str(n)` of a non-negative integer.
 */
module Text {

  /** Sum of the lengths of the items. */
  function TotalLength(xs: seq<string>): nat
  {
    if xs == [] then 0 else |xs[0]| + TotalLength(xs[1..])
  }

  /**
   * `sep.join(xs)`: the items in list order with `sep` between each two
   * consecutive ones; the empty list gives the empty string.
   */
  function Join(xs: seq<string>, sep: string): (r: string)
    ensures xs == [] ==> r == ""
    ensures |xs| == 1 ==> r == xs[0]
    ensures xs != [] ==> |r| == TotalLength(xs) + (|xs| - 1) * |sep|
    ensures xs != [] ==> r[..|xs[0]|] == xs[0]
  {
    if xs == [] then ""
    else if |xs| == 1 then xs[0]
    else xs[0] + sep + Join(xs[1..], sep)
  }

  /** Every item followed by `sep`: an independent description of what `Join` produces. */
  function Terminated(xs: seq<string>, sep: string): string
  {
    if xs == [] then "" else xs[0] + sep + Terminated(xs[1..], sep)
  }

  /** Joining and then appending one separator is the same as terminating every item. */
  lemma {:induction false} JoinThenSeparator(xs: seq<string>, sep: string)
    requires xs != []
    ensures Join(xs, sep) + sep == Terminated(xs, sep)
  {
    if |xs| == 1 {
      assert xs[1..] == [];
    } else {
      JoinThenSeparator(xs[1..], sep);
    }
  }

  /** Joining a concatenation: the two joined halves with one separator between them. */
  lemma {:induction false} JoinConcat(a: seq<string>, b: seq<string>, sep: string)
    requires a != [] && b != []
    ensures Join(a + b, sep) == Join(a, sep) + sep + Join(b, sep)
  {
    if |a| == 1 {
      assert (a + b)[1..] == b;
    } else {
      assert (a + b)[1..] == a[1..] + b;
      JoinConcat(a[1..], b, sep);
    }
  }

  /** The decimal digit character of `d`. */
  function DigitChar(d: nat): (c: char)
    requires d < 10
    ensures '0' <= c <= '9'
  {
    "0123456789"[d]
  }

  /** The value of a decimal digit character. */
  function DigitValue(c: char): (d: nat)
    requires '0' <= c <= '9'
    ensures d < 10
  {
    c as int - '0' as int
  }

  predicate IsDigits(s: string)
  {
    forall i :: 0 <= i < |s| ==> '0' <= s[i] <= '9'
  }

  /**
   * `str(n)` for a non-negative integer: its decimal digits, most significant
   * first, with no leading zero except for zero itself.
   */
  function NatToString(n: nat): (s: string)
    ensures s != [] && IsDigits(s)
    ensures (|s| == 1) == (n < 10)
    ensures (s[0] == '0') == (n == 0)
  {
    if n < 10 then [DigitChar(n)]
    else NatToString(n / 10) + [DigitChar(n % 10)]
  }

  /** The number a string of decimal digits denotes. */
  function ParseDecimal(s: string): nat
    requires IsDigits(s)
  {
    if s == [] then 0 else ParseDecimal(s[..|s| - 1]) * 10 + DigitValue(s[|s| - 1])
  }

  /** Reading back the decimal rendering of a number gives the number. */
  lemma {:induction false} ParseNatToString(n: nat)
    ensures ParseDecimal(NatToString(n)) == n
  {
    var s := NatToString(n);
    if n < 10 {
      assert s[..0] == [];
    } else {
      assert s[..|s| - 1] == NatToString(n / 10);
      ParseNatToString(n / 10);
    }
  }
}
