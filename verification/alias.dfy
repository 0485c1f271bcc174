/** `ElnkProShortener.generateAlias` (src/ElnkProShortener.js:818-835): the
    alphabet is the 52 ASCII letters, then the ten digits when numbers are
    included, then `-_` when special characters are; each character is
    `chars.charAt(Math.floor(Math.random() * chars.length))`.

    `Math.random` is an input: `draws` lists the values it returns, each in
    [0, 1), one per character. */
module Alias {
  import opened Wrappers

  const Lower := "abcdefghijklmnopqrstuvwxyz"
  const Upper := "ABCDEFGHIJKLMNOPQRSTUVWXYZ"
  const Letters := Lower + Upper
  const Digits := "0123456789"
  const Specials := "-_"

  /** The characters from `first` on, `n` of them, in code-point order. */
  function Span(first: char, n: nat): (r: string)
    requires first as int + n <= 0xD800
    ensures |r| == n
    ensures forall i :: 0 <= i < n ==> r[i] == (first as int + i) as char
  {
    seq(n, i requires 0 <= i < n => (first as int + i) as char)
  }

  /** A span holds exactly the characters of its range. */
  lemma SpanMembers(first: char, n: nat, c: char)
    requires first as int + n <= 0xD800
    ensures c in Span(first, n) <==> first <= c && (c as int) < first as int + n
  {
    if first <= c && (c as int) < first as int + n {
      assert Span(first, n)[c as int - first as int] == c;
    }
  }

  lemma SpansSpellAlphabet()
    ensures Lower == Span('a', 26) && Upper == Span('A', 26)
    ensures Digits == Span('0', 10)
  {
  }

  predicate IsAsciiLetter(c: char) {
    'a' <= c <= 'z' || 'A' <= c <= 'Z'
  }

  /** `chars` after the two optional `+=`. */
  function Alphabet(includeNumbers: bool, includeSpecialChars: bool): (chars: string)
    ensures |chars| == 52 + (if includeNumbers then 10 else 0) + (if includeSpecialChars then 2 else 0)
  {
    Letters + (if includeNumbers then Digits else "") + (if includeSpecialChars then Specials else "")
  }

  /** Which characters an alias can contain. */
  lemma AlphabetMembers(includeNumbers: bool, includeSpecialChars: bool, c: char)
    ensures c in Alphabet(includeNumbers, includeSpecialChars) <==>
      || IsAsciiLetter(c)
      || (includeNumbers && '0' <= c <= '9')
      || (includeSpecialChars && (c == '-' || c == '_'))
  {
    SpansSpellAlphabet();
    SpanMembers('a', 26, c);
    SpanMembers('A', 26, c);
    SpanMembers('0', 10, c);
    var numbers := if includeNumbers then Digits else "";
    var specials := if includeSpecialChars then Specials else "";
    assert Alphabet(includeNumbers, includeSpecialChars) == Lower + Upper + numbers + specials;
    assert c in Specials <==> c == '-' || c == '_' by {
      assert Specials == ['-', '_'];
    }
  }

  /** `Math.floor(d * n)` for a draw d in [0, 1): an index below n. */
  function Pick(d: real, n: nat): (k: nat)
    requires 0.0 <= d < 1.0 && n > 0
    ensures k < n
  {
    ScaledDrawBelow(d, n);
    (d * n as real).Floor
  }

  lemma ScaledDrawBelow(d: real, n: nat)
    requires 0.0 <= d < 1.0 && n > 0
    ensures 0.0 <= d * n as real < n as real
  {
    assert n as real - d * n as real == (1.0 - d) * n as real;
  }

  /** Every index is reachable: the draw k / n picks index k. */
  lemma PickReaches(k: nat, n: nat)
    requires k < n
    ensures 0.0 <= k as real / n as real < 1.0
    ensures Pick(k as real / n as real, n) == k
  {
    var d := k as real / n as real;
    assert d * n as real == k as real;
  }

  predicate IsDraw(d: real) {
    0.0 <= d < 1.0
  }

  /** The default arguments `length = 8`, `includeNumbers = true` and
      `includeSpecialChars = false` apply when an argument is omitted. */
  datatype AliasOptions = AliasOptions(length: Option<int>, includeNumbers: Option<bool>,
                                       includeSpecialChars: Option<bool>)

  const NoArguments := AliasOptions(None, None, None)

  function AliasLength(o: AliasOptions): int {
    o.length.GetOr(8)
  }

  function AliasAlphabet(o: AliasOptions): (chars: string)
    ensures o == NoArguments ==> chars == Alphabet(true, false)
  {
    Alphabet(o.includeNumbers.GetOr(true), o.includeSpecialChars.GetOr(false))
  }

  /** `generateAlias(length, includeNumbers, includeSpecialChars)`: exactly
      `length` characters (none for a non-positive length), character i
      being the one draw i picks from the alphabet. Called without
      arguments it yields eight letters and digits. */
  method GenerateAlias(o: AliasOptions, draws: seq<real>) returns (result: string)
    requires AliasLength(o) <= |draws|
    requires forall i :: 0 <= i < |draws| ==> IsDraw(draws[i])
    ensures |result| == if AliasLength(o) < 0 then 0 else AliasLength(o)
    ensures forall i :: 0 <= i < |result| ==>
      IsDraw(draws[i]) && result[i] == AliasAlphabet(o)[Pick(draws[i], |AliasAlphabet(o)|)]
    ensures forall i :: 0 <= i < |result| ==> result[i] in AliasAlphabet(o)
    ensures o == NoArguments ==>
      |result| == 8 && forall i :: 0 <= i < |result| ==> IsAsciiLetter(result[i]) || '0' <= result[i] <= '9'
  {
    var length := AliasLength(o);
    var includeNumbers := o.includeNumbers.GetOr(true);
    var includeSpecialChars := o.includeSpecialChars.GetOr(false);
    var chars := Letters;
    if includeNumbers {
      chars := chars + Digits;
    }
    if includeSpecialChars {
      chars := chars + Specials;
    }
    assert chars == AliasAlphabet(o);
    result := "";
    var i := 0;
    while i < length
      invariant 0 <= i <= |draws| && |result| == i
      invariant if length < 0 then i == 0 else i <= length
      invariant forall j :: 0 <= j < i ==> result[j] == chars[Pick(draws[j], |chars|)]
    {
      result := result + [chars[Pick(draws[i], |chars|)]];
      i := i + 1;
    }
    if o == NoArguments {
      DefaultAliasIsAlphanumeric(result);
    }
  }

  /** With the defaults every alias matches `^[a-zA-Z0-9]+$` when non-empty. */
  lemma DefaultAliasIsAlphanumeric(alias: string)
    requires forall i :: 0 <= i < |alias| ==> alias[i] in Alphabet(true, false)
    ensures forall i :: 0 <= i < |alias| ==> IsAsciiLetter(alias[i]) || '0' <= alias[i] <= '9'
  {
    forall i | 0 <= i < |alias|
      ensures IsAsciiLetter(alias[i]) || '0' <= alias[i] <= '9'
    {
      AlphabetMembers(true, false, alias[i]);
    }
  }
}
