/**
 * The small pieces of text formatting the handlers rely on: the decimal rendering
 * of `%d`, the quoting of `%q`, and the prefix test and prefix removal of the
 * `strings` package.
 */
module Format {

  /** The character of one decimal digit. */
  function DigitChar(d: nat): (c: char)
    requires d < 10
    ensures '0' <= c <= '9' && (c - '0') as nat == d
  {
    "0123456789"[d]
  }

  predicate IsDigits(s: string) {
    forall i :: 0 <= i < |s| ==> '0' <= s[i] <= '9'
  }

  /** `%d` of a non-negative number: its decimal digits, most significant first, without leading zeros. */
  function NatToDecimal(n: nat): (s: string)
    ensures |s| >= 1 && IsDigits(s)
    ensures s[0] == '0' ==> n == 0 && s == "0"
    decreases n
  {
    if n < 10 then [DigitChar(n)] else NatToDecimal(n / 10) + [DigitChar(n % 10)]
  }

  /** The value a string of decimal digits denotes (the reference that rendering is checked against). */
  function DecimalValue(s: string): nat
    requires IsDigits(s)
  {
    if s == [] then 0 else DecimalValue(s[..|s| - 1]) * 10 + (s[|s| - 1] - '0') as nat
  }

  /** `%d` of any integer: a minus sign before the digits of a negative number. */
  function IntToDecimal(n: int): (s: string)
    ensures |s| >= 1
    ensures n < 0 <==> s[0] == '-'
    ensures forall i :: 0 <= i < |s| ==> s[i] == '-' || '0' <= s[i] <= '9'
  {
    if n < 0 then "-" + NatToDecimal(-n) else NatToDecimal(n)
  }

  /** Reading back the digits that `%d` wrote gives the number that was written. */
  lemma {:induction false} NatToDecimalRoundTrip(n: nat)
    ensures DecimalValue(NatToDecimal(n)) == n
    decreases n
  {
    if n >= 10 {
      var s := NatToDecimal(n);
      assert s[..|s| - 1] == NatToDecimal(n / 10);
      NatToDecimalRoundTrip(n / 10);
    }
  }

  /** Distinct integers are printed as distinct texts, so a printed offset identifies the offset. */
  lemma {:induction false} IntToDecimalInjective(a: int, b: int)
    requires IntToDecimal(a) == IntToDecimal(b)
    ensures a == b
  {
    var s := IntToDecimal(a);
    assert a < 0 <==> b < 0 by { assert a < 0 <==> s[0] == '-'; }
    if a < 0 {
      assert s == "-" + NatToDecimal(-a) == "-" + NatToDecimal(-b);
      assert s[1..] == NatToDecimal(-a) && s[1..] == NatToDecimal(-b);
      NatToDecimalInjective(-a, -b);
    } else {
      NatToDecimalInjective(a, b);
    }
  }

  lemma {:induction false} NatToDecimalInjective(a: nat, b: nat)
    requires NatToDecimal(a) == NatToDecimal(b)
    ensures a == b
  {
    NatToDecimalRoundTrip(a);
    NatToDecimalRoundTrip(b);
  }

  /**
   * A text that ends with a space followed by a run of non-space characters splits there
   * in only one way, so the run at its end (a printed number, say) can be read off.
   */
  lemma {:induction false} SplitAfterLastSpace(head: string, tail: string, head': string, tail': string)
    requires head + tail == head' + tail'
    requires |head| > 0 && head[|head| - 1] == ' ' && |head'| > 0 && head'[|head'| - 1] == ' '
    requires forall i :: 0 <= i < |tail| ==> tail[i] != ' '
    requires forall i :: 0 <= i < |tail'| ==> tail'[i] != ' '
    ensures head == head' && tail == tail'
  {
    var s := head + tail;
    assert forall i :: |head| <= i < |s| ==> s[i] == tail[i - |head|] != ' ';
    assert forall i :: |head'| <= i < |s| ==> s[i] == tail'[i - |head'|] != ' ';
    assert s[|head| - 1] == ' ' && s[|head'| - 1] == ' ';
    assert |head| == |head'|;
    assert head == s[..|head|] == head';
    assert tail == s[|head|..] == tail';
  }

  /** `%q` of a string: the string between double quotes (escaping is not modelled). */
  function Quote(s: string): string {
    "\"" + s + "\""
  }

  /** `strings.HasPrefix`. */
  predicate HasPrefix(s: string, prefix: string) {
    |prefix| <= |s| && s[..|prefix|] == prefix
  }

  /** `strings.TrimPrefix`: the rest after the prefix, or the whole string when the prefix is absent. */
  function TrimPrefix(s: string, prefix: string): (rest: string)
    ensures HasPrefix(s, prefix) ==> prefix + rest == s
    ensures !HasPrefix(s, prefix) ==> rest == s
  {
    if HasPrefix(s, prefix) then s[|prefix|..] else s
  }

  /** Removing a prefix that was put in front of a string gives back that string. */
  lemma TrimPrefixOfConcat(prefix: string, rest: string)
    ensures HasPrefix(prefix + rest, prefix)
    ensures TrimPrefix(prefix + rest, prefix) == rest
  {
  }
}
