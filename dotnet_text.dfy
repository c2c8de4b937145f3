/**
 * The .NET string primitives the operations branch on: String.IsNullOrWhiteSpace,
 * String.IsNullOrEmpty, ordinal case-insensitive equality, Boolean.Parse,
 * Int32.Parse and String.Split with a count of two.
 * A C# string that may be null is an `Option<string>`.
 */
module DotNetText {
  import opened Wrappers

  type NString = Option<string>

  /** Char.IsWhiteSpace: the Unicode space, line and paragraph separators, U+0009..U+000D and U+0085. */
  predicate IsWhiteSpace(c: char)
  {
    ('\U{0009}' <= c <= '\U{000D}') || c == ' ' || c == '\U{0085}' || c == '\U{00A0}' || c == '\U{1680}'
    || ('\U{2000}' <= c <= '\U{200A}') || c == '\U{2028}' || c == '\U{2029}' || c == '\U{202F}'
    || c == '\U{205F}' || c == '\U{3000}'
  }

  /** String.IsNullOrWhiteSpace */
  predicate IsNullOrWhiteSpace(s: NString)
  {
    s.None? || forall i :: 0 <= i < |s.value| ==> IsWhiteSpace(s.value[i])
  }

  /** String.IsNullOrEmpty */
  predicate IsNullOrEmpty(s: NString)
  {
    s.None? || s.value == ""
  }

  /** Upper-casing as ordinal comparison ignoring case applies it to ASCII letters. */
  function AsciiUpper(c: char): char
  {
    if 'a' <= c <= 'z' then (c as int - 32) as char else c
  }

  /** String.Equals(a, b, StringComparison.OrdinalIgnoreCase) on two non-null strings. */
  predicate EqualsIgnoreCase(a: string, b: string)
  {
    |a| == |b| && forall i :: 0 <= i < |a| ==> AsciiUpper(a[i]) == AsciiUpper(b[i])
  }

  /** String.Equals(a, b, StringComparison.OrdinalIgnoreCase) where either side may be null. */
  predicate NullableEqualsIgnoreCase(a: NString, b: NString)
  {
    if a.None? || b.None? then a == b else EqualsIgnoreCase(a.value, b.value)
  }

  // ---------------------------------------------------------------------------
  // Boolean.Parse

  datatype ParseError = ArgumentNull | Format | Overflow

  const TrueLiteral: string := "True"
  const FalseLiteral: string := "False"

  /** What Boolean.Parse strips before its second comparison: white space and U+0000. */
  predicate IsWhiteSpaceOrNull(c: char)
  {
    IsWhiteSpace(c) || c == '\0'
  }

  function TrimStartWhere(s: string, white: char -> bool): (r: string)
    ensures |r| <= |s| && r == s[|s| - |r|..]
    ensures r != [] ==> !white(r[0])
    decreases |s|
  {
    if s != [] && white(s[0]) then TrimStartWhere(s[1..], white) else s
  }

  function TrimEndWhere(s: string, white: char -> bool): (r: string)
    ensures |r| <= |s| && r == s[..|r|]
    ensures r != [] ==> !white(r[|r| - 1])
    decreases |s|
  {
    if s != [] && white(s[|s| - 1]) then TrimEndWhere(s[..|s| - 1], white) else s
  }

  function Trim(s: string, white: char -> bool): string
  {
    TrimEndWhere(TrimStartWhere(s, white), white)
  }

  /** Boolean.Parse: "True"/"False" in any ASCII case, first as given, then with white space and U+0000 trimmed. */
  function BooleanParse(s: NString): Result<bool, ParseError>
  {
    if s.None? then Err(ArgumentNull)
    else if EqualsIgnoreCase(s.value, TrueLiteral) then Ok(true)
    else if EqualsIgnoreCase(s.value, FalseLiteral) then Ok(false)
    else
      var t := Trim(s.value, IsWhiteSpaceOrNull);
      if EqualsIgnoreCase(t, TrueLiteral) then Ok(true)
      else if EqualsIgnoreCase(t, FalseLiteral) then Ok(false)
      else Err(Format)
  }

  /** Boolean.ToString */
  function BooleanToString(b: bool): string
  {
    if b then TrueLiteral else FalseLiteral
  }

  /** Boolean.Parse reads back what Boolean.ToString writes, in either case. */
  lemma {:induction false} BooleanRoundTrip(b: bool)
    ensures BooleanParse(Some(BooleanToString(b))) == Ok(b)
    ensures BooleanParse(Some(if b then "true" else "false")) == Ok(b)
  {
    if b {
      assert EqualsIgnoreCase("true", TrueLiteral) by { assert AsciiUpper('t') == 'T'; }
    } else {
      assert !EqualsIgnoreCase(FalseLiteral, TrueLiteral) by { assert |FalseLiteral| != |TrueLiteral|; }
      assert !EqualsIgnoreCase("false", TrueLiteral) by { assert |"false"| != |TrueLiteral|; }
      assert EqualsIgnoreCase("false", FalseLiteral) by { assert AsciiUpper('f') == 'F'; }
    }
  }

  /** A string that neither starts nor ends with a trimmed character is left as it is. */
  lemma {:induction false} TrimUnchanged(s: string, white: char -> bool)
    requires s != [] ==> !white(s[0]) && !white(s[|s| - 1])
    ensures Trim(s, white) == s
  {
    assert TrimStartWhere(s, white) == s;
  }

  /** A trimmed token that is neither literal, and null, are refused rather than read as false. */
  lemma {:induction false} BooleanParseRejects(s: NString)
    requires s.None? || !(EqualsIgnoreCase(Trim(s.value, IsWhiteSpaceOrNull), TrueLiteral)
                       || EqualsIgnoreCase(Trim(s.value, IsWhiteSpaceOrNull), FalseLiteral))
    ensures BooleanParse(s).Err?
  {
    if s.Some? {
      if EqualsIgnoreCase(s.value, TrueLiteral) {
        NoWhiteInLiteral(s.value, TrueLiteral);
      } else if EqualsIgnoreCase(s.value, FalseLiteral) {
        NoWhiteInLiteral(s.value, FalseLiteral);
      }
    }
  }

  /** A string equal, ignoring case, to a literal made of letters has nothing to trim. */
  lemma {:induction false} NoWhiteInLiteral(s: string, literal: string)
    requires literal == TrueLiteral || literal == FalseLiteral
    requires EqualsIgnoreCase(s, literal)
    ensures Trim(s, IsWhiteSpaceOrNull) == s
  {
    assert AsciiUpper(s[0]) == AsciiUpper(literal[0]);
    assert AsciiUpper(s[|s| - 1]) == AsciiUpper(literal[|s| - 1]);
    TrimUnchanged(s, IsWhiteSpaceOrNull);
  }

  /** The tokens the DSC test reports are accepted in any case; null is refused. */
  lemma {:induction false} BooleanParseExamples()
    ensures BooleanParse(Some("True")) == Ok(true)
    ensures BooleanParse(Some("true")) == Ok(true)
    ensures BooleanParse(Some("FALSE")) == Ok(false)
    ensures BooleanParse(None) == Err(ArgumentNull)
  {
    BooleanRoundTrip(true);
    assert !EqualsIgnoreCase("FALSE", TrueLiteral) by { assert |"FALSE"| != |TrueLiteral|; }
    assert EqualsIgnoreCase("FALSE", FalseLiteral);
  }

  /** "yes" is not a boolean token: it is refused, not read as false. */
  lemma {:induction false} BooleanParseRefusesYes()
    ensures BooleanParse(Some("yes")) == Err(Format)
  {
    var token := "yes";
    assert !IsWhiteSpaceOrNull(token[0]) && !IsWhiteSpaceOrNull(token[2]);
    TrimUnchanged(token, IsWhiteSpaceOrNull);
  }

  // ---------------------------------------------------------------------------
  // Int32.Parse (NumberStyles.Integer)

  /** The white space NumberStyles.AllowLeadingWhite / AllowTrailingWhite admit. */
  predicate IsNumberWhite(c: char)
  {
    c == ' ' || ('\U{0009}' <= c <= '\U{000D}')
  }

  predicate IsDigit(c: char) { '0' <= c <= '9' }

  predicate AllDigits(s: string) { forall i :: 0 <= i < |s| ==> IsDigit(s[i]) }

  function DigitValue(c: char): nat
    requires IsDigit(c)
  {
    c as int - '0' as int
  }

  function DigitChar(d: nat): (c: char)
    requires d < 10
    ensures IsDigit(c) && DigitValue(c) == d
  {
    ('0' as int + d) as char
  }

  /** The value of a string of decimal digits, most significant first. */
  function DecimalValue(s: string): nat
    requires AllDigits(s)
    decreases |s|
  {
    if s == [] then 0 else DecimalValue(s[..|s| - 1]) * 10 + DigitValue(s[|s| - 1])
  }

  const Int32Min: int := -0x8000_0000
  const Int32Max: int := 0x7FFF_FFFF

  /** Int32.Parse: optional white space, an optional sign, at least one digit, optional white space, in range. */
  function Int32Parse(s: NString): Result<int, ParseError>
  {
    if s.None? then Err(ArgumentNull)
    else
      var t := Trim(s.value, IsNumberWhite);
      var negative := t != [] && t[0] == '-';
      var digits := if t != [] && (t[0] == '-' || t[0] == '+') then t[1..] else t;
      if digits == [] || !AllDigits(digits) then Err(Format)
      else
        var magnitude: int := DecimalValue(digits);
        var v := if negative then -magnitude else magnitude;
        if v < Int32Min || Int32Max < v then Err(Overflow) else Ok(v)
  }

  /** The decimal digits of a natural number, as Int32.ToString writes them. */
  function NaturalToString(n: nat): (s: string)
    ensures s != [] && AllDigits(s)
    decreases n
  {
    if n < 10 then [DigitChar(n)] else NaturalToString(n / 10) + [DigitChar(n % 10)]
  }

  /** Int32.ToString with the invariant culture: a minus sign for negative values. */
  function Int32ToString(n: int): string
  {
    if n < 0 then "-" + NaturalToString(-n) else NaturalToString(n)
  }

  lemma {:induction false} DecimalValueOfNatural(n: nat)
    ensures DecimalValue(NaturalToString(n)) == n
    decreases n
  {
    var s := NaturalToString(n);
    if 10 <= n {
      DecimalValueOfNatural(n / 10);
      assert s[..|s| - 1] == NaturalToString(n / 10);
    }
  }

  /** Int32.Parse reads back every 32-bit value Int32.ToString writes. */
  lemma {:induction false} Int32RoundTrip(n: int)
    requires Int32Min <= n <= Int32Max
    ensures Int32Parse(Some(Int32ToString(n))) == Ok(n)
  {
    if n < 0 {
      NegativeRoundTrip(n);
    } else {
      NaturalRoundTrip(n);
    }
  }

  lemma {:induction false} NaturalRoundTrip(n: nat)
    requires n <= Int32Max
    ensures Int32Parse(Some(Int32ToString(n))) == Ok(n)
  {
    var s := NaturalToString(n);
    assert Int32ToString(n) == s;
    DecimalValueOfNatural(n);
    assert IsDigit(s[0]) && IsDigit(s[|s| - 1]);
    TrimUnchanged(s, IsNumberWhite);
    assert Trim(s, IsNumberWhite) == s;
    assert !(s[0] == '-' || s[0] == '+');
  }

  lemma {:induction false} NegativeRoundTrip(n: int)
    requires Int32Min <= n < 0
    ensures Int32Parse(Some(Int32ToString(n))) == Ok(n)
  {
    var digits := NaturalToString(-n);
    var s := "-" + digits;
    assert Int32ToString(n) == s;
    DecimalValueOfNatural(-n);
    assert s[0] == '-' && s[1..] == digits;
    assert IsDigit(s[|s| - 1]) by {
      assert s[|s| - 1] == digits[|digits| - 1];
    }
    TrimUnchanged(s, IsNumberWhite);
    assert Trim(s, IsNumberWhite) == s;
    assert DecimalValue(s[1..]) == -n;
  }

  // ---------------------------------------------------------------------------
  // String.Split(new[] { sep }, 2, StringSplitOptions.None).Last()

  /** The first index at or after `from` where `sep` occurs in `s`. */
  function IndexOfFrom(s: string, sep: string, from: nat): (r: Option<nat>)
    requires sep != []
    ensures r.Some? ==> from <= r.value && OccursAt(s, sep, r.value)
    ensures r.Some? ==> forall j :: from <= j < r.value ==> !OccursAt(s, sep, j)
    ensures r.None? ==> forall j :: from <= j ==> !OccursAt(s, sep, j)
    decreases |s| - from
  {
    if |s| < from + |sep| then None
    else if s[from..from + |sep|] == sep then Some(from)
    else IndexOfFrom(s, sep, from + 1)
  }

  predicate OccursAt(s: string, sep: string, j: int)
  {
    0 <= j && j + |sep| <= |s| && s[j..j + |sep|] == sep
  }

  /** The last piece of splitting `s` on `sep` into at most two pieces: all after the first `sep`, or all of `s`. */
  function SplitInTwoLast(s: string, sep: string): string
    requires sep != []
  {
    match IndexOfFrom(s, sep, 0)
    case None => s
    case Some(i) => s[i + |sep|..]
  }

  /** Without the separator the whole string is kept. */
  lemma {:induction false} SplitInTwoLastWithout(s: string, sep: string)
    requires sep != []
    requires forall j :: !OccursAt(s, sep, j)
    ensures SplitInTwoLast(s, sep) == s
  {
  }

  /** With the separator first occurring at `i`, what is kept is everything after that occurrence. */
  lemma {:induction false} SplitInTwoLastAfterFirst(s: string, sep: string, i: nat)
    requires sep != []
    requires OccursAt(s, sep, i) && forall j :: j < i ==> !OccursAt(s, sep, j)
    ensures s == s[..i] + sep + SplitInTwoLast(s, sep)
  {
    var k := IndexOfFrom(s, sep, 0);
    assert k == Some(i);
  }
}
