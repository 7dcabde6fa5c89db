/** The string operations the order core relies on: substring search
    (`String.prototype.includes`), `Array.prototype.join`, the newline
    flattening the export applies to memos, and integer `toString`. */
module Strings {

  /** `q` occurs in `s` starting at index `i`. */
  predicate OccursAt(s: string, q: string, i: int) {
    0 <= i && i + |q| <= |s| && s[i..i + |q|] == q
  }

  /** `s.includes(q)`: `q` is a contiguous substring of `s`. */
  predicate Contains(s: string, q: string) {
    exists i | 0 <= i <= |s| - |q| :: OccursAt(s, q, i)
  }

  /** Every string contains the empty string, and every string contains itself. */
  lemma ContainsEmptyAndSelf(s: string)
    ensures Contains(s, "") && Contains(s, s)
  {
    assert OccursAt(s, "", 0);
    assert OccursAt(s, s, 0);
  }

  /** `parts.join(sep)`: the parts with `sep` between neighbours. */
  function Join(parts: seq<string>, sep: string): string {
    if |parts| == 0 then ""
    else if |parts| == 1 then parts[0]
    else parts[0] + sep + Join(parts[1..], sep)
  }

  /** `s.replace(/\n/g, ' ')`: every line feed becomes a space, nothing else moves. */
  function FlattenLines(s: string): (r: string)
    ensures |r| == |s|
    ensures '\n' !in r
    ensures forall i :: 0 <= i < |s| ==> r[i] == (if s[i] == '\n' then ' ' else s[i])
  {
    if |s| == 0 then "" else [if s[0] == '\n' then ' ' else s[0]] + FlattenLines(s[1..])
  }

  /** The decimal digit for `d`. */
  function DigitChar(d: nat): char
    requires d < 10
  {
    "0123456789"[d]
  }

  /** The value of a decimal digit character. */
  function DigitValue(c: char): nat {
    if '0' <= c <= '9' then (c as int - '0' as int) as nat else 0
  }

  /** The decimal digits of `n`, most significant first, without leading zeros. */
  function NatToString(n: nat): (r: string)
    ensures |r| > 0
    ensures forall c :: c in r ==> '0' <= c <= '9'
    ensures |r| > 1 ==> r[0] != '0'
  {
    if n < 10 then [DigitChar(n)] else NatToString(n / 10) + [DigitChar(n % 10)]
  }

  /** The number a string of decimal digits denotes. */
  function DigitsValue(s: string): nat {
    if |s| == 0 then 0 else DigitsValue(s[..|s| - 1]) * 10 + DigitValue(s[|s| - 1])
  }

  /** Reading back the digits of `n` gives `n`. */
  lemma {:induction false} NatToStringRoundTrip(n: nat)
    ensures DigitsValue(NatToString(n)) == n
  {
    var s := NatToString(n);
    if n >= 10 {
      NatToStringRoundTrip(n / 10);
      assert s[..|s| - 1] == NatToString(n / 10);
    }
  }

  /** `String(i)` for an integer: a minus sign before the digits of a negative value. */
  function IntToString(i: int): (r: string)
    ensures |r| > 0
    ensures forall c :: c in r ==> c == '-' || '0' <= c <= '9'
    ensures (r[0] == '-') == (i < 0)
  {
    if i < 0 then "-" + NatToString(-i)
    else
      var r := NatToString(i);
      assert r[0] in r;
      r
  }
}
