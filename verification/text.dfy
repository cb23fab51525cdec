/** String helpers that stand for the JavaScript library calls the routes make. */
module Text {

  predicate IsDigit(c: char) {
    '0' <= c <= '9'
  }

  predicate AllDigits(s: string) {
    forall i :: 0 <= i < |s| ==> IsDigit(s[i])
  }

  /**
   * `s.replace(/\D/g, "")`: the digits of `s`, in order, with every other
   * character removed.
   */
  function Digits(s: string): (d: string)
    ensures AllDigits(d)
    ensures |d| <= |s|
  {
    if s == [] then [] else (if IsDigit(s[0]) then [s[0]] else []) + Digits(s[1..])
  }

  lemma {:induction false} DigitsConcat(a: string, b: string)
    ensures Digits(a + b) == Digits(a) + Digits(b)
  {
    if a == [] {
      assert a + b == b;
    } else {
      assert (a + b)[1..] == a[1..] + b;
      DigitsConcat(a[1..], b);
    }
  }

  /** Stripping leaves a digit-only string untouched ... */
  lemma {:induction false} DigitsOfDigitString(s: string)
    requires AllDigits(s)
    ensures Digits(s) == s
  {
    if s != [] {
      DigitsOfDigitString(s[1..]);
    }
  }

  /** ... so stripping twice is stripping once. */
  lemma DigitsIdempotent(s: string)
    ensures Digits(Digits(s)) == Digits(s)
  {
    DigitsOfDigitString(Digits(s));
  }

  /** The regular-expression test `/^\d+$/`: at least one character, all digits. */
  predicate OnlyDigitsPattern(s: string) {
    |s| > 0 && AllDigits(s)
  }

  /** `mensagens.join(sep)`. */
  function Join(ms: seq<string>, sep: string): (r: string)
    ensures ms == [] ==> r == ""
    ensures |ms| == 1 ==> r == ms[0]
    ensures |ms| == 2 ==> r == ms[0] + sep + ms[1]
  {
    if ms == [] then ""
    else if |ms| == 1 then ms[0]
    else ms[0] + sep + Join(ms[1..], sep)
  }

  /** `toLowerCase` on one character, restricted to the ASCII letters. */
  function LowerChar(c: char): (r: char)
    ensures !('A' <= r <= 'Z')
    ensures !('A' <= c <= 'Z') ==> r == c
  {
    if 'A' <= c <= 'Z' then (c as int - 'A' as int + 'a' as int) as char else c
  }

  function Lower(s: string): (r: string)
    ensures |r| == |s|
    ensures forall i :: 0 <= i < |s| ==> r[i] == LowerChar(s[i])
    ensures forall i :: 0 <= i < |r| ==> !('A' <= r[i] <= 'Z')
    ensures forall i :: 0 <= i < |s| && !('A' <= s[i] <= 'Z') ==> r[i] == s[i]
  {
    seq(|s|, i requires 0 <= i < |s| => LowerChar(s[i]))
  }

  /** `contains`: `t` occurs in `s` as a contiguous piece. */
  function Contains(s: string, t: string): (b: bool)
    ensures t == [] ==> b
    ensures t <= s ==> b
    ensures b ==> |t| <= |s|
  {
    assert t == [] ==> t <= s[0..];
    assert s[0..] == s;
    exists i :: 0 <= i <= |s| && t <= s[i..]
  }
}
