/** Small string and number helpers shared by the other modules: the
    character classes the extension's regular expressions use, substring
    search, ASCII case folding and trimming, and decimal rendering of
    naturals (JavaScript template literals). */
module Text {

  datatype Option<+T> = None | Some(value: T)

  predicate IsDigit(c: char) { '0' <= c <= '9' }

  /** The regex class [a-zA-Z0-9_]. */
  predicate IsWordChar(c: char) {
    ('a' <= c <= 'z') || ('A' <= c <= 'Z') || IsDigit(c) || c == '_'
  }

  predicate AllDigits(s: string) { forall i :: 0 <= i < |s| ==> IsDigit(s[i]) }

  predicate AllWordChars(s: string) { forall i :: 0 <= i < |s| ==> IsWordChar(s[i]) }

  /** String.prototype.startsWith */
  predicate StartsWith(s: string, p: string) { p <= s }

  /** String.prototype.includes: some suffix of s starts with sub. */
  predicate Contains(s: string, sub: string)
    decreases |s|
  {
    sub <= s || (|s| > 0 && Contains(s[1..], sub))
  }

  /** A falsy JavaScript string value (null, undefined or ""). */
  predicate Falsy(s: Option<string>) { s.None? || s.value == "" }

  /** The JavaScript idiom `value || fallback` on an optional string. */
  function OrElse(s: Option<string>, fallback: string): (r: string)
    ensures Falsy(s) ==> r == fallback
    ensures !Falsy(s) ==> r == s.value && r != ""
  {
    if Falsy(s) then fallback else s.value
  }

  /** sub occurs in s at index k. */
  predicate OccursAt(s: string, sub: string, k: nat) { k <= |s| && sub <= s[k..] }

  /** Contains is substring search: true exactly when sub occurs at some index. */
  lemma {:induction false} ContainsIff(s: string, sub: string)
    ensures Contains(s, sub) <==> exists k: nat :: OccursAt(s, sub, k)
    decreases |s|
  {
    if |s| > 0 {
      ContainsIff(s[1..], sub);
      assert s[0..] == s;
      if sub <= s {
        assert OccursAt(s, sub, 0);
      }
      forall k: nat | OccursAt(s[1..], sub, k) ensures OccursAt(s, sub, k + 1) {
        assert s[1..][k..] == s[k + 1..];
      }
      if exists k: nat :: OccursAt(s, sub, k) {
        var k: nat :| OccursAt(s, sub, k);
        if k > 0 {
          assert s[1..][k - 1..] == s[k..];
          assert OccursAt(s[1..], sub, k - 1);
        } else {
          assert s[0..] == s;
        }
      }
    } else {
      assert s[0..] == s;
      if sub <= s {
        assert OccursAt(s, sub, 0);
      }
    }
  }

  /** Length of the run of decimal digits at the start of s. */
  function DigitRun(s: string): (n: nat)
    ensures n <= |s|
    ensures AllDigits(s[..n])
    ensures n < |s| ==> !IsDigit(s[n])
  {
    if |s| > 0 && IsDigit(s[0]) then
      var m := DigitRun(s[1..]);
      assert s[..m + 1] == [s[0]] + s[1..][..m];
      m + 1
    else 0
  }

  /** Length of the run of word characters at the start of s. */
  function WordRun(s: string): (n: nat)
    ensures n <= |s|
    ensures AllWordChars(s[..n])
    ensures n < |s| ==> !IsWordChar(s[n])
  {
    if |s| > 0 && IsWordChar(s[0]) then
      var m := WordRun(s[1..]);
      assert s[..m + 1] == [s[0]] + s[1..][..m];
      m + 1
    else 0
  }

  /** Any run of word characters that is followed by the end or by a
      non-word character is the maximal one: the reason the extension's
      `^\/[a-zA-Z0-9_]+` patterns match deterministically. */
  lemma {:induction false} MaximalWordRun(s: string, k: nat)
    requires k <= |s| && AllWordChars(s[..k])
    requires k == |s| || !IsWordChar(s[k])
    ensures WordRun(s) == k
    decreases k
  {
    if k > 0 {
      assert IsWordChar(s[..k][0]);
      assert s[1..][..k - 1] == s[..k][1..];
      MaximalWordRun(s[1..], k - 1);
    }
  }

  /** ASCII case folding, as String.prototype.toLowerCase on ASCII letters. */
  function LowerChar(c: char): (r: char)
    ensures 'A' <= c <= 'Z' ==> 'a' <= r <= 'z'
    ensures !('A' <= c <= 'Z') ==> r == c
  {
    if 'A' <= c <= 'Z' then (c as int - 'A' as int + 'a' as int) as char else c
  }

  function Lower(s: string): (r: string)
    ensures |r| == |s|
    ensures forall i :: 0 <= i < |s| ==> r[i] == LowerChar(s[i])
  {
    if s == [] then [] else [LowerChar(s[0])] + Lower(s[1..])
  }

  predicate IsSpace(c: char) {
    c == ' ' || c == '\t' || c == '\n' || c == '\r' || c == '\U{000B}' || c == '\U{000C}'
  }

  function TrimStart(s: string): (r: string)
    ensures r <= s || (|r| <= |s| && r == s[|s| - |r|..])
    ensures r == [] || !IsSpace(r[0])
  {
    if |s| > 0 && IsSpace(s[0]) then TrimStart(s[1..]) else s
  }

  function TrimEnd(s: string): (r: string)
    ensures r <= s
    ensures r == [] || !IsSpace(r[|r| - 1])
  {
    if |s| > 0 && IsSpace(s[|s| - 1]) then TrimEnd(s[..|s| - 1]) else s
  }

  /** String.prototype.trim over ASCII white space. */
  function Trim(s: string): string { TrimEnd(TrimStart(s)) }

  function DigitChar(d: nat): (c: char)
    requires d < 10
    ensures IsDigit(c)
  {
    ('0' as int + d) as char
  }

  function DigitValue(c: char): (d: nat)
    requires IsDigit(c)
    ensures d < 10
  {
    c as int - '0' as int
  }

  /** Decimal rendering of a natural number, as `${n}` in JavaScript. */
  function Show(n: nat): (s: string)
    ensures |s| > 0 && AllDigits(s)
  {
    if n < 10 then [DigitChar(n)] else Show(n / 10) + [DigitChar(n % 10)]
  }

  /** The value of a string of decimal digits. */
  function DigitsValue(s: string): nat
    requires AllDigits(s)
  {
    if s == [] then 0 else DigitsValue(s[..|s| - 1]) * 10 + DigitValue(s[|s| - 1])
  }

  /** Show is inverted by DigitsValue. */
  lemma {:induction false} ShowRoundTrip(n: nat)
    ensures DigitsValue(Show(n)) == n
  {
    if n >= 10 {
      ShowRoundTrip(n / 10);
      var s := Show(n);
      assert s[..|s| - 1] == Show(n / 10);
    }
  }

  /** A rendered number followed by a non-digit ends exactly where the
      rendering ends. */
  lemma ShowThenStop(n: nat, rest: string)
    requires rest == [] || !IsDigit(rest[0])
    ensures DigitRun(Show(n) + rest) == |Show(n)|
    ensures (Show(n) + rest)[..|Show(n)|] == Show(n)
    ensures (Show(n) + rest)[|Show(n)|..] == rest
  {
    var s := Show(n) + rest;
    assert s[..|Show(n)|] == Show(n);
    DigitRunAtLeast(s, |Show(n)|);
  }

  lemma {:induction false} DigitRunAtLeast(s: string, k: nat)
    requires k <= |s| && AllDigits(s[..k])
    requires k == |s| || !IsDigit(s[k])
    ensures DigitRun(s) == k
    decreases k
  {
    if k > 0 {
      assert IsDigit(s[..k][0]);
      assert s[1..][..k - 1] == s[..k][1..];
      DigitRunAtLeast(s[1..], k - 1);
    }
  }
}
