/** The scalar values a decoded JSON request body carries, and the PHP
    coercions the controllers and the card validator apply to them:
    `isset`/`empty`, `is_numeric`, the `(int)` and `(string)` casts,
    ASCII lower-casing and the case-insensitive search of `stripos`. */
module PhpValues {
  import opened Common

  /** A JSON scalar. JSON `null` is represented by the key being absent,
      which is how `isset` treats it. Every number is an integer; a request's
      amount is in whole units of the currency, and the gateway is charged
      that amount times 100, in cents. */
  datatype Value = Text(s: string) | Number(n: int) | Flag(b: bool)

  /** A decoded JSON object (`$data`). */
  type Fields = map<string, Value>

  predicate IsDigit(c: char)
  {
    '0' <= c <= '9'
  }

  predicate IsDigits(s: string)
  {
    forall i :: 0 <= i < |s| ==> IsDigit(s[i])
  }

  function DigitValue(c: char): (v: int)
    requires IsDigit(c)
    ensures 0 <= v <= 9
  {
    c as int - '0' as int
  }

  function DigitChar(v: int): (c: char)
    requires 0 <= v <= 9
    ensures IsDigit(c) && DigitValue(c) == v
  {
    (v + '0' as int) as char
  }

  /** Value of a string of decimal digits, most significant digit first. */
  function DecimalValue(d: string): nat
    requires IsDigits(d)
  {
    if d == [] then 0 else DecimalValue(d[..|d| - 1]) * 10 + DigitValue(d[|d| - 1])
  }

  /** Decimal representation of a natural number, without leading zeros. */
  function NatToString(n: nat): (s: string)
    ensures |s| > 0 && IsDigits(s)
  {
    if n < 10 then [DigitChar(n)] else NatToString(n / 10) + [DigitChar(n % 10)]
  }

  /** PHP's `(string)` of an integer. */
  function IntToString(n: int): string
  {
    if n < 0 then "-" + NatToString(-n) else NatToString(n)
  }

  /** The whitespace PHP skips in front of a numeric string:
      space, tab, newline, carriage return, vertical tab, form feed. */
  predicate IsSpace(c: char)
  {
    c == ' ' || c == '\t' || c == '\n' || c == '\r' || c as int == 11 || c as int == 12
  }

  predicate IsAllSpace(s: string)
  {
    forall i :: 0 <= i < |s| ==> IsSpace(s[i])
  }

  function SkipSpace(s: string): (t: string)
    ensures |t| <= |s| && t == s[|s| - |t|..]
    ensures t == [] || !IsSpace(t[0])
  {
    if |s| > 0 && IsSpace(s[0]) then SkipSpace(s[1..]) else s
  }

  /** The longest prefix of `s` made of decimal digits. */
  function LeadingDigits(s: string): (d: string)
    ensures IsDigits(d) && d <= s
    ensures |d| < |s| ==> !IsDigit(s[|d|])
  {
    if |s| > 0 && IsDigit(s[0]) then [s[0]] + LeadingDigits(s[1..]) else []
  }

  /** PHP's `(int)` cast of a string in integer notation: optional leading
      whitespace, an optional sign, then the longest run of digits; 0 when
      there is none. A fraction or an exponent after the digits is ignored
      here, where PHP reads the whole numeral and truncates it ("1e3" is
      1000 there, 1 here). */
  function StringToInt(s: string): int
  {
    var t := SkipSpace(s);
    if |t| > 0 && t[0] == '-' then 0 - DecimalValue(LeadingDigits(t[1..]))
    else if |t| > 0 && t[0] == '+' then DecimalValue(LeadingDigits(t[1..])) as int
    else DecimalValue(LeadingDigits(t)) as int
  }

  /** PHP's `is_numeric` on a string, for integer notation: optional
      leading whitespace, an optional sign, at least one digit, optional
      trailing whitespace. */
  predicate IsNumericText(s: string)
  {
    var t := SkipSpace(s);
    var u := if |t| > 0 && (t[0] == '-' || t[0] == '+') then t[1..] else t;
    var d := LeadingDigits(u);
    |d| > 0 && IsAllSpace(u[|d|..])
  }

  /** PHP's `is_numeric`. */
  predicate IsNumeric(v: Value)
  {
    match v
    case Number(_) => true
    case Text(s) => IsNumericText(s)
    case Flag(_) => false
  }

  /** The number a numeric value stands for (what `<` and `<=` compare). */
  function NumericValue(v: Value): int
    requires IsNumeric(v)
  {
    match v
    case Number(n) => n
    case Text(s) => StringToInt(s)
  }

  /** PHP's `(int)` cast. */
  function IntCast(v: Value): int
  {
    match v
    case Number(n) => n
    case Text(s) => StringToInt(s)
    case Flag(b) => if b then 1 else 0
  }

  /** PHP's `(string)` cast, also applied when a value is passed to a
      `string` parameter. */
  function AsText(v: Value): string
  {
    match v
    case Text(s) => s
    case Number(n) => IntToString(n)
    case Flag(b) => if b then "1" else ""
  }

  /** PHP's `empty()` on a value that is set: "", "0", 0 and false. */
  predicate IsEmpty(v: Value)
  {
    v == Text("") || v == Text("0") || v == Number(0) || v == Flag(false)
  }

  /** `isset($data[$k]) && !empty($data[$k])`. */
  predicate Filled(data: Fields, k: string)
  {
    k in data && !IsEmpty(data[k])
  }

  function LowerChar(c: char): char
  {
    if 'A' <= c <= 'Z' then (c as int + 32) as char else c
  }

  /** ASCII lower-casing, as `strtolower` and `stripos` apply it. */
  function Lower(s: string): (r: string)
    ensures |r| == |s|
    ensures forall i :: 0 <= i < |s| ==> r[i] == LowerChar(s[i])
  {
    if s == [] then [] else [LowerChar(s[0])] + Lower(s[1..])
  }

  function UpperChar(c: char): char
  {
    if 'a' <= c <= 'z' then (c as int - 32) as char else c
  }

  /** ASCII upper-casing, as `strtoupper` applies it. */
  function Upper(s: string): (r: string)
    ensures |r| == |s|
    ensures forall i :: 0 <= i < |s| ==> r[i] == UpperChar(s[i])
  {
    if s == [] then [] else [UpperChar(s[0])] + Upper(s[1..])
  }

  /** `needle` occurs somewhere in `hay`. */
  predicate IsSubstring(needle: string, hay: string)
  {
    needle <= hay || (|hay| > 0 && IsSubstring(needle, hay[1..]))
  }

  /** `stripos($hay, $needle) !== false`. */
  predicate ContainsIgnoringCase(hay: string, needle: string)
  {
    IsSubstring(Lower(needle), Lower(hay))
  }

  lemma {:induction false} DecimalValueOfNatToString(n: nat)
    ensures DecimalValue(NatToString(n)) == n
  {
    var s := NatToString(n);
    if n < 10 {
      assert s[..|s| - 1] == [];
    } else {
      assert s[..|s| - 1] == NatToString(n / 10);
      DecimalValueOfNatToString(n / 10);
    }
  }

  lemma {:induction false} LeadingDigitsOfDigits(s: string)
    requires IsDigits(s)
    ensures LeadingDigits(s) == s
  {
    if |s| > 0 {
      LeadingDigitsOfDigits(s[1..]);
      assert [s[0]] + s[1..] == s;
    }
  }

  lemma StringToIntOfDigits(d: string)
    requires |d| > 0 && IsDigits(d)
    ensures StringToInt(d) == DecimalValue(d)
  {
    assert IsDigit(d[0]) && !IsSpace(d[0]);
    assert SkipSpace(d) == d;
    assert d[0] != '-' && d[0] != '+';
    LeadingDigitsOfDigits(d);
  }

  lemma StringToIntOfNegated(d: string)
    requires |d| > 0 && IsDigits(d)
    ensures StringToInt("-" + d) == 0 - DecimalValue(d)
  {
    var t := "-" + d;
    assert t[0] == '-';
    assert SkipSpace(t) == t;
    assert t[1..] == d;
    LeadingDigitsOfDigits(d);
  }

  /** Casting the decimal text of an integer back with `(int)` gives the
      integer: a card field sent as a JSON number and read through the
      `string` parameters of the validators keeps its value. */
  lemma IntToStringRoundTrip(n: int)
    ensures StringToInt(IntToString(n)) == n
  {
    if n < 0 {
      DecimalValueOfNatToString(-n);
      StringToIntOfNegated(NatToString(-n));
    } else {
      DecimalValueOfNatToString(n);
      StringToIntOfDigits(NatToString(n));
    }
  }

  lemma IntCastOfAsText(n: int)
    ensures IntCast(Text(AsText(Number(n)))) == IntCast(Number(n))
  {
    IntToStringRoundTrip(n);
  }

  lemma {:induction false} SubstringAt(needle: string, hay: string, i: int)
    requires 0 <= i <= |hay| && needle <= hay[i..]
    ensures IsSubstring(needle, hay)
  {
    if i > 0 {
      assert hay[1..][i - 1..] == hay[i..];
      SubstringAt(needle, hay[1..], i - 1);
    }
  }

  lemma {:induction false} SubstringOfPrefix(a: string, b: string, c: string)
    requires IsSubstring(a, b) && b <= c
    ensures IsSubstring(a, c)
  {
    if !(a <= b) {
      assert |b| > 0 && IsSubstring(a, b[1..]);
      assert b[1..] <= c[1..];
      SubstringOfPrefix(a, b[1..], c[1..]);
    }
  }

  lemma {:induction false} SubstringTransitive(a: string, b: string, c: string)
    requires IsSubstring(a, b) && IsSubstring(b, c)
    ensures IsSubstring(a, c)
  {
    if b <= c {
      SubstringOfPrefix(a, b, c);
    } else {
      SubstringTransitive(a, b, c[1..]);
    }
  }

  /** Lower-casing preserves occurrences. */
  lemma {:induction false} LowerPreservesSubstring(a: string, b: string)
    requires IsSubstring(a, b)
    ensures IsSubstring(Lower(a), Lower(b))
  {
    if a <= b {
      assert Lower(a) <= Lower(b);
    } else {
      LowerPreservesSubstring(a, b[1..]);
      assert Lower(b)[1..] == Lower(b[1..]);
    }
  }

  /** `stripos` finds a keyword in any text containing a word that contains
      the keyword, whatever the case: the search is monotone in the text. */
  lemma ContainsIgnoringCaseTransitive(hay: string, word: string, keyword: string)
    requires ContainsIgnoringCase(hay, word) && ContainsIgnoringCase(word, keyword)
    ensures ContainsIgnoringCase(hay, keyword)
  {
    SubstringTransitive(Lower(keyword), Lower(word), Lower(hay));
  }
}
