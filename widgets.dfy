/**
 * `countryCodeToEmojiFlag`: a country code becomes the string of Unicode
 * Regional Indicator Symbols that renders as the country's flag.
 * Text is a sequence of UTF-16 code units (Kotlin `Char`s) on input and of
 * Unicode code points on output.
 */
module Widgets {

  /** A Kotlin `Char`: one UTF-16 code unit. */
  type CodeUnit = c: int | 0 <= c < 0x1_0000

  /** "N/A", the placeholder shown when no country code is known. */
  const NotAvailable: seq<CodeUnit> := [0x4E, 0x2F, 0x41]

  /** U+1F1E6 REGIONAL INDICATOR SYMBOL LETTER A. */
  const RegionalIndicatorA: int := 0x1F1E6

  /** `Char.uppercase` under `Locale.US`, for ASCII (other units are kept). */
  function UpperAscii(c: CodeUnit): (u: CodeUnit)
  {
    if 0x61 <= c <= 0x7A then c - 0x20 else c
  }

  predicate IsUpperAsciiLetter(c: CodeUnit)
  {
    0x41 <= c <= 0x5A
  }

  /** `String.uppercase(Locale.US)`, unit by unit. */
  function UppercaseUS(s: seq<CodeUnit>): (u: seq<CodeUnit>)
    ensures |u| == |s|
    // each lower-case ASCII letter becomes its upper-case letter; every other unit is kept
    ensures forall i :: 0 <= i < |s| ==> if 0x61 <= s[i] <= 0x7A then u[i] == s[i] - 0x20 else u[i] == s[i]
    // no lower-case ASCII letter is left
    ensures forall i :: 0 <= i < |u| ==> !(0x61 <= u[i] <= 0x7A)
  {
    seq(|s|, i requires 0 <= i < |s| => UpperAscii(s[i]))
  }

  /** Upper-casing twice is upper-casing once. */
  lemma UppercaseIdempotent(s: seq<CodeUnit>)
    ensures UppercaseUS(UppercaseUS(s)) == UppercaseUS(s)
  {
  }

  /** The code point a single (upper-cased) unit is mapped to: `c - 0x41 + 0x1F1E6`. */
  function RegionalIndicator(c: CodeUnit): int
  {
    c - 0x41 + RegionalIndicatorA
  }

  /** The `map`/`map`/`joinToString` pipeline: one code point per unit, in order. */
  function ToRegionalIndicators(s: seq<CodeUnit>): (r: seq<int>)
    ensures |r| == |s|
    ensures forall i :: 0 <= i < |s| ==> r[i] == RegionalIndicator(s[i])
  {
    if s == [] then [] else [RegionalIndicator(s[0])] + ToRegionalIndicators(s[1..])
  }

  /** `countryCodeToEmojiFlag`; "N/A" is passed through unchanged. */
  function CountryCodeToEmojiFlag(code: seq<CodeUnit>): (flag: seq<int>)
    ensures code == NotAvailable ==> flag == NotAvailable
    ensures code != NotAvailable ==> |flag| == |code|
    ensures code != NotAvailable ==>
              forall i :: 0 <= i < |code| ==> flag[i] == UpperAscii(code[i]) - 0x41 + 0x1F1E6
  {
    if code == NotAvailable then NotAvailable
    else ToRegionalIndicators(UppercaseUS(code))
  }

  /** Every output code point is valid, so `Character.toChars` never throws. */
  lemma FlagCodePointsValid(code: seq<CodeUnit>)
    requires code != NotAvailable
    ensures forall i :: 0 <= i < |code| ==>
              0x1_0000 <= CountryCodeToEmojiFlag(code)[i] <= 0x10_FFFF
  {
  }

  /** The empty code gives the empty flag. */
  lemma EmptyFlag()
    ensures CountryCodeToEmojiFlag([]) == []
  {
  }

  /** 'A' is U+1F1E6 and 'Z' is U+1F1FF; "US" and "us" are U+1F1FA U+1F1F8. */
  lemma FlagLetters()
    ensures CountryCodeToEmojiFlag([0x41]) == [0x1F1E6]
    ensures CountryCodeToEmojiFlag([0x5A]) == [0x1F1FF]
    ensures CountryCodeToEmojiFlag([0x55, 0x53]) == [0x1F1FA, 0x1F1F8]
    ensures CountryCodeToEmojiFlag([0x75, 0x73]) == CountryCodeToEmojiFlag([0x55, 0x53])
  {
  }

  /** A code of upper-case letters maps into the 26 regional indicator symbols. */
  lemma FlagOfLettersIsRegional(code: seq<CodeUnit>)
    requires forall i :: 0 <= i < |code| ==> IsUpperAsciiLetter(code[i])
    ensures code != NotAvailable
    ensures forall i :: 0 <= i < |code| ==>
              RegionalIndicatorA <= CountryCodeToEmojiFlag(code)[i] <= RegionalIndicatorA + 25
  {
    if |code| == |NotAvailable| {
      assert IsUpperAsciiLetter(code[1]) && !IsUpperAsciiLetter(NotAvailable[1]);
    }
  }

  /** Lower- and upper-case spellings give the same flag (unless one of them is "N/A"). */
  lemma FlagIgnoresCase(code: seq<CodeUnit>, other: seq<CodeUnit>)
    requires code != NotAvailable && other != NotAvailable
    requires |code| == |other|
    // at each position the two units are equal, or the same ASCII letter in the two cases
    requires forall i :: 0 <= i < |code| ==>
               || code[i] == other[i]
               || (IsUpperAsciiLetter(other[i]) && code[i] == other[i] + 0x20)
               || (IsUpperAsciiLetter(code[i]) && other[i] == code[i] + 0x20)
    ensures CountryCodeToEmojiFlag(code) == CountryCodeToEmojiFlag(other)
  {
  }

  /** "n/a" is not the placeholder: it is mapped code unit by code unit. */
  lemma LowercasePlaceholderIsMapped()
    ensures CountryCodeToEmojiFlag([0x6E, 0x2F, 0x61]) != NotAvailable
    ensures CountryCodeToEmojiFlag([0x6E, 0x2F, 0x61]) == [0x1F1F3, 0x1F1D4, 0x1F1E6]
  {
  }

  /** The per-unit map is injective: different upper-case codes have different flags. */
  lemma FlagInjective(code: seq<CodeUnit>, other: seq<CodeUnit>)
    requires forall i :: 0 <= i < |code| ==> IsUpperAsciiLetter(code[i])
    requires forall i :: 0 <= i < |other| ==> IsUpperAsciiLetter(other[i])
    requires code != other
    ensures CountryCodeToEmojiFlag(code) != CountryCodeToEmojiFlag(other)
  {
    FlagOfLettersIsRegional(code);
    FlagOfLettersIsRegional(other);
    if |code| == |other| {
      var i :| 0 <= i < |code| && code[i] != other[i];
      assert CountryCodeToEmojiFlag(code)[i] != CountryCodeToEmojiFlag(other)[i];
    }
  }

  /** Reading a flag back: each code point minus the offset of the regional indicators. */
  function FlagToCountryCode(flag: seq<int>): (code: seq<int>)
    ensures |code| == |flag|
    ensures forall i :: 0 <= i < |flag| ==> code[i] == flag[i] - RegionalIndicatorA + 0x41
  {
    seq(|flag|, i requires 0 <= i < |flag| => flag[i] - RegionalIndicatorA + 0x41)
  }

  /** The flag decodes to the upper-cased code. */
  lemma FlagRoundTrip(code: seq<CodeUnit>)
    requires code != NotAvailable
    ensures FlagToCountryCode(CountryCodeToEmojiFlag(code)) == UppercaseUS(code)
  {
    var back := FlagToCountryCode(CountryCodeToEmojiFlag(code));
    assert |back| == |UppercaseUS(code)|;
    forall i | 0 <= i < |code| ensures back[i] == UppercaseUS(code)[i] {
    }
  }
}
