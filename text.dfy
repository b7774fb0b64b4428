/**
 * Small text utilities the bot relies on: decimal rendering of numbers
 * (template literals such as `${votes}`), ASCII lower-casing
 * (`String.prototype.toLowerCase`) and `split(' ')[1]`.
 */
module Text {
  import opened Wrappers

  predicate IsDigit(c: char) {
    '0' <= c <= '9'
  }

  predicate AllDigits(s: string) {
    forall i :: 0 <= i < |s| ==> IsDigit(s[i])
  }

  function DigitChar(d: nat): (c: char)
    requires d < 10
    ensures IsDigit(c)
  {
    (('0' as int) + d) as char
  }

  function DigitValue(c: char): (d: nat)
    requires IsDigit(c)
    ensures d < 10
  {
    (c as int) - ('0' as int)
  }

  /** Decimal text of a natural number, without leading zeros. */
  function NatToString(n: nat): (s: string)
    ensures |s| > 0 && AllDigits(s)
  {
    if n < 10 then [DigitChar(n)] else NatToString(n / 10) + [DigitChar(n % 10)]
  }

  /** Decimal text of an integer, as JavaScript renders it in a template literal. */
  function IntToString(v: int): (s: string)
    ensures v < 0 ==> |s| > 1 && s[0] == '-' && AllDigits(s[1..])
    ensures v >= 0 ==> |s| > 0 && AllDigits(s)
  {
    if v < 0 then "-" + NatToString(-v) else NatToString(v)
  }

  /** Value of a string of decimal digits. */
  function ParseDigits(s: string): nat
    requires AllDigits(s)
  {
    if s == [] then 0 else 10 * ParseDigits(s[..|s| - 1]) + DigitValue(s[|s| - 1])
  }

  /** Reading back the digits of a number gives the number. */
  lemma {:induction false} ParseNatToString(n: nat)
    ensures ParseDigits(NatToString(n)) == n
  {
    var s := NatToString(n);
    if n >= 10 {
      assert s[..|s| - 1] == NatToString(n / 10);
      ParseNatToString(n / 10);
    }
  }

  /** Distinct numbers render differently, so a rendered timestamp identifies it. */
  lemma NatToStringInjective(m: nat, n: nat)
    requires NatToString(m) == NatToString(n)
    ensures m == n
  {
    ParseNatToString(m);
    ParseNatToString(n);
  }

  /** Lower-casing of the ASCII upper-case letters. */
  function LowerChar(c: char): (r: char)
    ensures 'A' <= c <= 'Z' ==> r as int == c as int + 32
    ensures !('A' <= c <= 'Z') ==> r == c
  {
    if 'A' <= c <= 'Z' then ((c as int) + 32) as char else c
  }

  function ToLower(s: string): (r: string)
    ensures |r| == |s|
    ensures forall i :: 0 <= i < |s| ==> r[i] == LowerChar(s[i])
  {
    seq(|s|, i requires 0 <= i < |s| => LowerChar(s[i]))
  }

  /** Index of the first space of `s`, if any. */
  function FirstSpace(s: string): (r: Option<nat>)
    ensures r.Some? ==> r.value < |s| && s[r.value] == ' ' && ' ' !in s[..r.value]
    ensures r.None? ==> ' ' !in s
  {
    if s == [] then None
    else if s[0] == ' ' then Some(0)
    else match FirstSpace(s[1..])
      case None => None
      case Some(i) => assert s[..i + 1] == [s[0]] + s[1..][..i]; Some(i + 1)
  }

  /** The text before the first space (the whole text when there is none). */
  function Word(s: string): (w: string)
    ensures w <= s && ' ' !in w
    ensures |w| < |s| ==> s[|w|] == ' '
  {
    match FirstSpace(s)
    case None => s
    case Some(i) => s[..i]
  }

  /** `s.split(' ')[1]`: the field after the first space, or `undefined` (None). */
  function SecondWord(s: string): Option<string>
  {
    match FirstSpace(s)
    case None => None
    case Some(i) => Some(Word(s[i + 1..]))
  }

  /** A command followed by a space and a word is read back as that word. */
  lemma SecondWordOf(command: string, w: string, rest: string)
    requires ' ' !in command && ' ' !in w
    requires rest == [] || rest[0] == ' '
    ensures SecondWord(command + " " + w + rest) == Some(w)
  {
    var s := command + " " + w + rest;
    FirstSpaceAt(command, w + rest);
    assert s == command + " " + (w + rest);
    assert s[|command| + 1..] == w + rest;
    WordOf(w, rest);
  }

  lemma {:induction false} FirstSpaceAt(a: string, b: string)
    requires ' ' !in a
    ensures FirstSpace(a + " " + b) == Some(|a|)
  {
    if a != [] {
      assert (a + " " + b)[1..] == a[1..] + " " + b;
      FirstSpaceAt(a[1..], b);
    }
  }

  lemma {:induction false} WordOf(w: string, rest: string)
    requires ' ' !in w
    requires rest == [] || rest[0] == ' '
    ensures Word(w + rest) == w
  {
    var s := w + rest;
    if rest != [] {
      assert s[|w|] == ' ' && ' ' !in s[..|w|];
    }
  }
}
