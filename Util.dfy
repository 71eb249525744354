/**
 * Small value-level helpers shared by every page: an optional value, the
 * JavaScript `a || b` defaulting on strings, decimal rendering of counts,
 * and ASCII lower-casing.
 */
module Util {

  datatype Option<+T> = None | Some(value: T)

  /** JavaScript `s || d` on a string: the empty string is falsy. */
  function OrElse(s: string, d: string): (r: string)
    ensures r == s || r == d
    ensures s != "" ==> r == s
    ensures d != "" ==> r != ""
  {
    if s != "" then s else d
  }

  /** JavaScript `o || d` on an optional string: absent and "" are falsy. */
  function OptOrElse(o: Option<string>, d: string): (r: string)
    ensures o.Some? && o.value != "" ==> r == o.value
    ensures (o.None? || o.value == "") ==> r == d
  {
    match o
    case None => d
    case Some(s) => OrElse(s, d)
  }

  /** True when an optional string is truthy in JavaScript. */
  predicate Truthy(o: Option<string>)
  {
    o.Some? && o.value != ""
  }

  // ---------------------------------------------------------------------
  // Decimal rendering of the "X/Y" counters of the batch notifications.

  predicate IsDigit(c: char)
  {
    '0' <= c <= '9'
  }

  function DigitChar(d: nat): (c: char)
    requires d < 10
    ensures IsDigit(c)
    ensures c as int - '0' as int == d
  {
    ('0' as int + d) as char
  }

  /** Template-literal rendering `${n}` of a non-negative integer. */
  function NatToString(n: nat): (s: string)
    ensures |s| >= 1
    ensures forall i :: 0 <= i < |s| ==> IsDigit(s[i])
    ensures n >= 10 ==> s[0] != '0'
    decreases n
  {
    if n < 10 then [DigitChar(n)] else NatToString(n / 10) + [DigitChar(n % 10)]
  }

  function DigitValue(c: char): (d: nat)
    requires IsDigit(c)
    ensures d < 10
  {
    c as int - '0' as int
  }

  /** The value of a string of decimal digits. */
  function DigitsValue(s: string): nat
    requires forall i :: 0 <= i < |s| ==> IsDigit(s[i])
    decreases |s|
  {
    if s == [] then 0
    else DigitsValue(s[..|s| - 1]) * 10 + DigitValue(s[|s| - 1])
  }

  /** Reading the rendered counter back gives the counter: the rendering loses nothing. */
  lemma {:induction false} NatToStringRoundTrip(n: nat)
    ensures DigitsValue(NatToString(n)) == n
    decreases n
  {
    var s := NatToString(n);
    if n >= 10 {
      NatToStringRoundTrip(n / 10);
      assert s[..|s| - 1] == NatToString(n / 10);
    }
  }

  /** Distinct counters are rendered differently. */
  lemma NatToStringInjective(m: nat, n: nat)
    requires NatToString(m) == NatToString(n)
    ensures m == n
  {
    NatToStringRoundTrip(m);
    NatToStringRoundTrip(n);
  }

  // ---------------------------------------------------------------------
  // Lower-casing, as `String.prototype.toLowerCase` does on ASCII letters.

  function LowerChar(c: char): (r: char)
    ensures 'A' <= c <= 'Z' ==> r as int == c as int + 32
    ensures !('A' <= c <= 'Z') ==> r == c
    ensures !('A' <= r <= 'Z')
  {
    if 'A' <= c <= 'Z' then (c as int + 32) as char else c
  }

  function Lower(s: string): (r: string)
    ensures |r| == |s|
    ensures forall i :: 0 <= i < |s| ==> r[i] == LowerChar(s[i])
  {
    if s == [] then [] else [LowerChar(s[0])] + Lower(s[1..])
  }

  /** Lower-casing twice is lower-casing once. */
  lemma LowerIdempotent(s: string)
    ensures Lower(Lower(s)) == Lower(s)
  {
    var l := Lower(s);
    assert forall i :: 0 <= i < |l| ==> LowerChar(l[i]) == l[i];
  }
}
