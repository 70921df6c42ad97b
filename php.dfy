/** The part of PHP's value model the gateway relies on: decoded JSON arrays, `empty()`,
    reads of `$a['k']` inside `isset`/`empty`, and the string and integer conversions
    (`(string)`, `absint`, `trim`, `preg_replace('/\s+/', '', …)`, `strtoupper`,
    `strtolower`) that the source applies to them. */
module Php {

  /** An array key: a name, or an integer index (a decoded JSON list has keys 0, 1, …). */
  datatype Key = Name(name: string) | Index(index: int)

  /** A PHP value as produced by `json_decode($s, true)` or built by the gateway.
      JSON numbers are modelled as integers. */
  datatype Value =
    | Null
    | Bool(b: bool)
    | Int(i: int)
    | Str(s: string)
    | Arr(entries: map<Key, Value>)

  const EmptyArray: Value := Arr(map[])

  /** PHP's `empty($v)`: null, false, 0, "", "0" and the empty array. */
  predicate Empty(v: Value) {
    match v
    case Null => true
    case Bool(b) => !b
    case Int(i) => i == 0
    case Str(s) => s == "" || s == "0"
    case Arr(m) => m == map[]
  }

  /** `$v[$k]` as read under `isset`/`empty`: null when `$v` is not an array or lacks `$k`.
      Every path the gateway reads ends in a named key, so PHP's string offsets never
      make a difference there. */
  function Get(v: Value, k: Key): Value {
    if v.Arr? && k in v.entries then v.entries[k] else Null
  }

  function Field(v: Value, name: string): Value {
    Get(v, Name(name))
  }

  /** The source's idiom `!empty($v) ? $v : $default`. */
  function NonEmptyOr(v: Value, default: Value): Value {
    if !Empty(v) then v else default
  }

  /** `!empty($v) ? $v : ''` is `''` exactly when `$v` is empty: this is what the
      source's tests `$x === ''` and `$x !== ''` on such a value decide. */
  lemma NonEmptyOrBlank(v: Value)
    ensures NonEmptyOr(v, Str("")) == Str("") <==> Empty(v)
    ensures !Empty(v) ==> NonEmptyOr(v, Str("")) == v
  {
  }

  // ---------------------------------------------------------------------------
  // Decimal digits and integer conversions

  predicate IsDigit(c: char) {
    '0' <= c <= '9'
  }

  function DigitChar(d: nat): (c: char)
    requires d < 10
    ensures IsDigit(c) && DigitValue(c) == d
  {
    ('0' as int + d) as char
  }

  function DigitValue(c: char): nat
    requires IsDigit(c)
  {
    c as int - '0' as int
  }

  predicate AllDigits(s: string) {
    forall i :: 0 <= i < |s| ==> IsDigit(s[i])
  }

  /** Decimal notation of a natural number, as PHP's `(string)` writes it. */
  function NatToString(n: nat): (s: string)
    ensures |s| >= 1 && AllDigits(s)
    ensures n >= 10 ==> s[0] != '0'
    decreases n
  {
    if n < 10 then [DigitChar(n)] else NatToString(n / 10) + [DigitChar(n % 10)]
  }

  /** PHP's `(string)` on an integer. */
  function IntToString(i: int): string {
    if i < 0 then "-" + NatToString(-i) else NatToString(i)
  }

  /** The value of a string of decimal digits. */
  function DigitsValue(ds: string): nat
    requires AllDigits(ds)
  {
    if ds == [] then 0 else 10 * DigitsValue(ds[..|ds| - 1]) + DigitValue(ds[|ds| - 1])
  }

  /** The longest prefix of `s` made of decimal digits. */
  function LeadingDigits(s: string): (r: string)
    ensures AllDigits(r) && r <= s
    ensures |r| < |s| ==> !IsDigit(s[|r|])
  {
    if s == [] || !IsDigit(s[0]) then [] else [s[0]] + LeadingDigits(s[1..])
  }

  /** The whitespace PHP skips before a numeric string. */
  predicate IsNumericSpace(c: char) {
    c == ' ' || c == '\t' || c == '\n' || c == '\r' || c as int == 11 || c as int == 12
  }

  function SkipNumericSpace(s: string): (r: string)
    ensures |r| <= |s| && r == s[|s| - |r|..]
    ensures r != [] ==> !IsNumericSpace(r[0])
  {
    if s != [] && IsNumericSpace(s[0]) then SkipNumericSpace(s[1..]) else s
  }

  /** PHP's `intval` on a string: optional leading whitespace, an optional sign, then the
      longest run of decimal digits; anything else yields 0. */
  function IntVal(s: string): int {
    var t := SkipNumericSpace(s);
    if t != [] && t[0] == '-' then -(DigitsValue(LeadingDigits(t[1..])) as int)
    else if t != [] && t[0] == '+' then DigitsValue(LeadingDigits(t[1..]))
    else DigitsValue(LeadingDigits(t))
  }

  function Abs(i: int): nat {
    if i < 0 then -i else i
  }

  /** WordPress's `absint($v)`, that is `abs(intval($v))`. */
  function Absint(v: Value): nat {
    match v
    case Null => 0
    case Bool(b) => if b then 1 else 0
    case Int(i) => Abs(i)
    case Str(s) => Abs(IntVal(s))
    case Arr(m) => if m == map[] then 0 else 1
  }

  lemma {:induction false} LeadingDigitsOfDigits(s: string)
    requires AllDigits(s)
    ensures LeadingDigits(s) == s
  {
    if s != [] {
      LeadingDigitsOfDigits(s[1..]);
    }
  }

  lemma {:induction false} DigitsValueOfNat(n: nat)
    ensures DigitsValue(NatToString(n)) == n
    decreases n
  {
    if n >= 10 {
      var s := NatToString(n);
      DigitsValueOfNat(n / 10);
      assert s[..|s| - 1] == NatToString(n / 10);
    }
  }

  /** `absint` reads back every decimal number `(string)` writes, so an order id that
      travels as the string "42" is found again as the order 42. */
  lemma {:induction false} AbsintOfDecimal(n: nat)
    ensures IntVal(NatToString(n)) == n
    ensures Absint(Str(NatToString(n))) == n
  {
    IntValOfDigits(NatToString(n));
    DigitsValueOfNat(n);
  }

  /** `intval` of a non-empty string of digits is the number they spell. */
  lemma IntValOfDigits(s: string)
    requires s != [] && AllDigits(s)
    ensures IntVal(s) == DigitsValue(s)
  {
    assert IsDigit(s[0]);
    assert SkipNumericSpace(s) == s;
    LeadingDigitsOfDigits(s);
  }

  /** PHP's `(string)` conversion. An array becomes "Array" (PHP 8 adds a warning). */
  function ToStr(v: Value): string {
    match v
    case Null => ""
    case Bool(b) => if b then "1" else ""
    case Int(i) => IntToString(i)
    case Str(s) => s
    case Arr(_) => "Array"
  }

  /** WordPress's `sanitize_text_field($v)` on a value read from a decoded response: an
      array gives "", anything else is cast with `(string)` and passed to the host's text
      sanitizer `sanitize`. */
  function SanitizeTextField(sanitize: string -> string, v: Value): string {
    if v.Arr? then "" else sanitize(ToStr(v))
  }

  // ---------------------------------------------------------------------------
  // Whitespace removal and trimming

  /** The characters of PCRE's `\s` outside Unicode mode. */
  predicate IsSpace(c: char) {
    c == ' ' || c == '\t' || c == '\n' || c == '\r' || c as int == 11 || c as int == 12
  }

  /** `preg_replace('/\s+/', '', $s)`: every whitespace character removed, the others
      kept in order. */
  function StripWhitespace(s: string): (r: string)
    ensures |r| <= |s|
    ensures forall i :: 0 <= i < |r| ==> !IsSpace(r[i])
    ensures r == [] <==> forall i :: 0 <= i < |s| ==> IsSpace(s[i])
  {
    if s == [] then []
    else if IsSpace(s[0]) then StripWhitespace(s[1..])
    else [s[0]] + StripWhitespace(s[1..])
  }

  /** Whitespace removal works character by character: on a concatenation it is the
      concatenation of the two removals. With `StripWhitespaceOfChar` this fixes the
      result for every input: the non-whitespace characters, in their order. */
  lemma {:induction false} StripWhitespaceKeepsOthers(a: string, b: string)
    ensures StripWhitespace(a + b) == StripWhitespace(a) + StripWhitespace(b)
  {
    if a == [] {
      assert a + b == b;
    } else {
      assert (a + b)[0] == a[0] && (a + b)[1..] == a[1..] + b;
      StripWhitespaceKeepsOthers(a[1..], b);
    }
  }

  /** A single character is dropped exactly when it is whitespace. */
  lemma StripWhitespaceOfChar(c: char)
    ensures StripWhitespace([c]) == if IsSpace(c) then [] else [c]
  {
    assert [c][1..] == [];
  }

  /** The characters PHP's `trim` removes by default: " \t\n\r\0\x0B". */
  predicate IsTrimChar(c: char) {
    c == ' ' || c == '\t' || c == '\n' || c == '\r' || c as int == 0 || c as int == 11
  }

  predicate Blank(s: string) {
    forall i :: 0 <= i < |s| ==> IsTrimChar(s[i])
  }

  function TrimStart(s: string): (r: string)
    ensures |r| <= |s| && r == s[|s| - |r|..] && Blank(s[..|s| - |r|])
    ensures r != [] ==> !IsTrimChar(r[0])
    ensures r == [] <==> Blank(s)
  {
    if s != [] && IsTrimChar(s[0]) then TrimStart(s[1..]) else s
  }

  function TrimEnd(s: string): (r: string)
    ensures r <= s && Blank(s[|r|..])
    ensures r != [] ==> !IsTrimChar(r[|r| - 1])
    ensures r == [] <==> Blank(s)
  {
    if s != [] && IsTrimChar(s[|s| - 1]) then TrimEnd(s[..|s| - 1]) else s
  }

  /** PHP's `trim($s)`: the trim characters removed from both ends. */
  function Trim(s: string): (r: string)
    ensures |r| <= |s|
    ensures exists i :: 0 <= i <= |s| - |r| && r == s[i..i + |r|] && Blank(s[..i]) &&
                        Blank(s[i + |r|..])
    ensures r != [] ==> !IsTrimChar(r[0]) && !IsTrimChar(r[|r| - 1])
    ensures r == [] <==> Blank(s)
  {
    var t := TrimStart(s);
    assert t != [] ==> !Blank(t) by {
      if t != [] {
        assert !IsTrimChar(t[0]);
      }
    }
    var r := TrimEnd(t);
    var i := |s| - |t|;
    assert r == s[i..i + |r|] && s[i + |r|..] == t[|r|..];
    r
  }

  // ---------------------------------------------------------------------------
  // ASCII case mapping

  function UpperChar(c: char): char {
    if 'a' <= c <= 'z' then (c as int - 32) as char else c
  }

  function LowerChar(c: char): char {
    if 'A' <= c <= 'Z' then (c as int + 32) as char else c
  }

  /** `strtoupper($s)` (byte-wise ASCII, as PHP 8 does it). */
  function ToUpper(s: string): (r: string)
    ensures |r| == |s|
    ensures forall i :: 0 <= i < |s| ==> r[i] == UpperChar(s[i])
  {
    seq(|s|, i requires 0 <= i < |s| => UpperChar(s[i]))
  }

  /** `strtolower($s)` (byte-wise ASCII, as PHP 8 does it). */
  function ToLower(s: string): (r: string)
    ensures |r| == |s|
    ensures forall i :: 0 <= i < |s| ==> r[i] == LowerChar(s[i])
  {
    seq(|s|, i requires 0 <= i < |s| => LowerChar(s[i]))
  }

  /** ASCII case-insensitive equality. */
  predicate EqualsIgnoringCase(a: string, b: string) {
    |a| == |b| && forall i :: 0 <= i < |a| ==> UpperChar(a[i]) == UpperChar(b[i])
  }

  /** Comparing `strtoupper($s)` with an upper-case word is comparing `$s` with that word
      regardless of case. */
  lemma ToUpperMatchesIgnoringCase(s: string, word: string)
    requires ToUpper(word) == word
    ensures ToUpper(s) == word <==> EqualsIgnoringCase(s, word)
  {
    if EqualsIgnoringCase(s, word) {
      forall i | 0 <= i < |s| ensures ToUpper(s)[i] == word[i] {
        assert UpperChar(word[i]) == ToUpper(word)[i];
      }
    }
    if ToUpper(s) == word {
      forall i | 0 <= i < |s| ensures UpperChar(s[i]) == UpperChar(word[i]) {
        assert ToUpper(s)[i] == UpperChar(s[i]);
        assert UpperChar(UpperChar(s[i])) == UpperChar(s[i]);
      }
    }
  }

  /** Lower-casing leaves no upper-case ASCII letter and keeps line breaks where they were. */
  lemma ToLowerKeepsNewlines(s: string)
    ensures forall i :: 0 <= i < |s| ==> (ToLower(s)[i] == '\n' <==> s[i] == '\n')
    ensures forall i :: 0 <= i < |s| ==> !('A' <= ToLower(s)[i] <= 'Z')
  {
  }
}
