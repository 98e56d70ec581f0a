/**
 * The string operations of JavaScript and Java that the dashboard relies on, stated exactly
 * enough for the model: `indexOf`/`contains`, `replace` with a string pattern (first occurrence
 * only), `startsWith`, `trim`, `parseInt(s, 10)`, `String(n)`, Java's `toLowerCase` on Latin-1
 * letters, and the serialiser of `URLSearchParams` on characters it leaves unescaped.
 */
module Text {
  import opened Wrappers

  // ---------------------------------------------------------------------------------------------
  // Occurrences, indexOf, contains, replace-first, startsWith
  // ---------------------------------------------------------------------------------------------

  /** `pat` occurs in `s` starting at index `i`. */
  predicate OccursAt(s: string, pat: string, i: int) {
    0 <= i && i + |pat| <= |s| && s[i..i + |pat|] == pat
  }

  /** The first index at or after `from` where `pat` occurs. */
  function IndexOfFrom(s: string, pat: string, from: nat): (r: Option<nat>)
    requires from <= |s|
    ensures r.Some? ==> from <= r.value && OccursAt(s, pat, r.value)
    ensures r.Some? ==> forall j :: from <= j < r.value ==> !OccursAt(s, pat, j)
    ensures r.None? ==> forall j :: from <= j ==> !OccursAt(s, pat, j)
    decreases |s| - from
  {
    if from + |pat| > |s| then None
    else if s[from..from + |pat|] == pat then Some(from)
    else IndexOfFrom(s, pat, from + 1)
  }

  /** `s.indexOf(pat)`, with `None` for JavaScript's -1: the first occurrence, if any. */
  function IndexOf(s: string, pat: string): (r: Option<nat>)
    ensures r.Some? ==> OccursAt(s, pat, r.value)
    ensures r.Some? ==> forall j :: 0 <= j < r.value ==> !OccursAt(s, pat, j)
    ensures r.None? <==> forall j :: !OccursAt(s, pat, j)
  {
    IndexOfFrom(s, pat, 0)
  }

  /** `s.contains(pat)` (Java) and `s.includes(pat)` (JavaScript). */
  predicate Contains(s: string, pat: string) {
    IndexOf(s, pat).Some?
  }

  lemma ContainsIff(s: string, pat: string)
    ensures Contains(s, pat) <==> exists j :: OccursAt(s, pat, j)
  {
  }

  /** `s.replace(pat, rep)` with a string pattern: only the FIRST occurrence is replaced. */
  function ReplaceFirst(s: string, pat: string, rep: string): (r: string)
    ensures (forall j :: !OccursAt(s, pat, j)) ==> r == s
    ensures forall i {:trigger OccursAt(s, pat, i)} ::
      OccursAt(s, pat, i) && (forall j :: 0 <= j < i ==> !OccursAt(s, pat, j)) ==>
        r == s[..i] + rep + s[i + |pat|..]
  {
    match IndexOf(s, pat)
    case None => s
    case Some(i) => s[..i] + rep + s[i + |pat|..]
  }

  /** Replacing a leading `pat` by the empty string gives back what followed it. */
  lemma ReplaceLeading(pat: string, rest: string)
    ensures ReplaceFirst(pat + rest, pat, "") == rest
  {
    var s := pat + rest;
    assert OccursAt(s, pat, 0) by { assert s[0..|pat|] == pat; }
    assert s[|pat|..] == rest;
  }

  /** A string in which `pat` does not occur is left alone. */
  lemma ReplaceAbsent(s: string, pat: string, rep: string)
    requires !Contains(s, pat)
    ensures ReplaceFirst(s, pat, rep) == s
  {
  }

  /** `s.startsWith(prefix)`. */
  predicate StartsWith(s: string, prefix: string) {
    |prefix| <= |s| && s[..|prefix|] == prefix
  }

  // ---------------------------------------------------------------------------------------------
  // Java's String.toLowerCase, on the letters of Latin-1
  // ---------------------------------------------------------------------------------------------

  /** Lower-cases A-Z and the Latin-1 capitals U+00C0..U+00DE (except U+00D7, the multiplication sign). */
  function LowerChar(c: char): char {
    if 'A' <= c <= 'Z' then (c as int + 32) as char
    else if '\U{00C0}' <= c <= '\U{00DE}' && c != '\U{00D7}' then (c as int + 32) as char
    else c
  }

  /** `toLowerCase`: each character lower-cased in place. */
  function ToLower(s: string): (r: string)
    ensures |r| == |s|
    ensures forall i :: 0 <= i < |s| ==> r[i] == LowerChar(s[i])
  {
    if s == [] then [] else [LowerChar(s[0])] + ToLower(s[1..])
  }

  /** Lower-casing works character by character, so it distributes over concatenation. */
  lemma ToLowerAppend(a: string, b: string)
    ensures ToLower(a + b) == ToLower(a) + ToLower(b)
  {
    var l, r := ToLower(a + b), ToLower(a) + ToLower(b);
    assert |l| == |r|;
    forall i | 0 <= i < |l| ensures l[i] == r[i] {
      if i < |a| {
        assert (a + b)[i] == a[i];
      } else {
        assert (a + b)[i] == b[i - |a|];
      }
    }
  }

  // ---------------------------------------------------------------------------------------------
  // JavaScript whitespace, trim
  // ---------------------------------------------------------------------------------------------

  /** ECMAScript WhiteSpace and LineTerminator code points: what `trim` and `parseInt` skip. */
  predicate IsJsWhitespace(c: char) {
    || c == '\t' || c == '\n' || c == '\U{000B}' || c == '\U{000C}' || c == '\r' || c == ' '
    || c == '\U{00A0}' || c == '\U{1680}' || ('\U{2000}' <= c <= '\U{200A}')
    || c == '\U{2028}' || c == '\U{2029}' || c == '\U{202F}' || c == '\U{205F}'
    || c == '\U{3000}' || c == '\U{FEFF}'
  }

  predicate AllWhitespace(s: string) {
    forall i :: 0 <= i < |s| ==> IsJsWhitespace(s[i])
  }

  /** `s.trimStart()`: drops the longest all-whitespace prefix. */
  function TrimStart(s: string): (r: string)
    ensures |r| <= |s| && r == s[|s| - |r|..]
    ensures AllWhitespace(s[..|s| - |r|])
    ensures r != [] ==> !IsJsWhitespace(r[0])
  {
    if s != [] && IsJsWhitespace(s[0]) then
      var r := TrimStart(s[1..]);
      assert s[1..][..|s| - 1 - |r|] == s[1..|s| - |r|];
      r
    else s
  }

  /** `s.trimEnd()`: drops the longest all-whitespace suffix. */
  function TrimEnd(s: string): (r: string)
    ensures |r| <= |s| && r == s[..|r|]
    ensures AllWhitespace(s[|r|..])
    ensures r != [] ==> !IsJsWhitespace(r[|r| - 1])
  {
    if s != [] && IsJsWhitespace(s[|s| - 1]) then
      var r := TrimEnd(s[..|s| - 1]);
      assert s[..|s| - 1][|r|..] == s[|r|..|s| - 1];
      assert s[..|s| - 1][..|r|] == s[..|r|];
      assert s[|r|..] == s[|r|..|s| - 1] + [s[|s| - 1]];
      r
    else s
  }

  /** `s.trim()`. */
  function Trim(s: string): string {
    TrimEnd(TrimStart(s))
  }

  /** `!s.trim()` holds exactly for the strings made only of whitespace (the empty one included). */
  lemma TrimEmptyIffBlank(s: string)
    ensures Trim(s) == "" <==> AllWhitespace(s)
  {
    var t := TrimStart(s);
    if t == "" {
      assert s[..|s|] == s;
    } else {
      assert !IsJsWhitespace(s[|s| - |t|]);
    }
  }

  // ---------------------------------------------------------------------------------------------
  // Decimal numerals: String(n), Long.toString, parseInt(s, 10)
  // ---------------------------------------------------------------------------------------------

  predicate IsDigit(c: char) {
    '0' <= c <= '9'
  }

  predicate AllDigits(s: string) {
    forall i :: 0 <= i < |s| ==> IsDigit(s[i])
  }

  function DigitChar(d: nat): (c: char)
    requires d < 10
    ensures IsDigit(c) && c as int - '0' as int == d
  {
    ('0' as int + d) as char
  }

  /** The value of a string of decimal digits, most significant first. */
  function DecimalValue(ds: string): nat
    requires AllDigits(ds)
  {
    if ds == [] then 0 else DecimalValue(ds[..|ds| - 1]) * 10 + (ds[|ds| - 1] as int - '0' as int)
  }

  /** The shortest decimal numeral of `n`: digits only, no leading zero, and its value is `n`. */
  function NatToDecimal(n: nat): (r: string)
    ensures |r| >= 1 && AllDigits(r)
    ensures DecimalValue(r) == n
    ensures r[0] == '0' ==> n == 0
    decreases n
  {
    if n < 10 then [DigitChar(n)]
    else
      var r := NatToDecimal(n / 10) + [DigitChar(n % 10)];
      assert r[..|r| - 1] == NatToDecimal(n / 10);
      r
  }

  /** `String(n)` for an integer-valued number, and Java's `Long.toString(n)`. */
  function IntToDecimal(n: int): (r: string)
    ensures |r| >= 1
  {
    if n < 0 then "-" + NatToDecimal(-n) else NatToDecimal(n)
  }

  /** The length of the longest prefix of `s` made of decimal digits. */
  function DigitPrefixLength(s: string): (k: nat)
    ensures k <= |s| && AllDigits(s[..k])
    ensures k < |s| ==> !IsDigit(s[k])
  {
    if s != [] && IsDigit(s[0]) then
      var k := 1 + DigitPrefixLength(s[1..]);
      assert s[..k] == [s[0]] + s[1..][..k - 1];
      k
    else 0
  }

  /**
   * `parseInt(s, 10)`: skip leading whitespace, take an optional sign, then the longest run of
   * digits; `None` stands for `NaN`, the result when there is no digit at all.
   */
  function ParseInt10(s: string): (r: Option<int>)
    ensures r.None? <==> DigitPrefixLength(Unsigned(TrimStart(s))) == 0
  {
    var t := TrimStart(s);
    var body := Unsigned(t);
    var k := DigitPrefixLength(body);
    if k == 0 then None
    else
      var v: int := DecimalValue(body[..k]);
      Some(if t != [] && t[0] == '-' then -v else v)
  }

  /** What follows an optional leading sign. */
  function Unsigned(t: string): string {
    if t != [] && (t[0] == '-' || t[0] == '+') then t[1..] else t
  }

  /** `parseInt(String(n), 10) == n`: a numeral printed from an integer parses back to it. */
  lemma ParseIntOfDecimal(n: int)
    ensures ParseInt10(IntToDecimal(n)) == Some(n)
  {
    ParseIntOfDecimalThen(n, "");
    assert IntToDecimal(n) + "" == IntToDecimal(n);
  }

  /** `parseInt` stops at the first non-digit, so a printed numeral followed by other text still parses to its value. */
  lemma ParseIntOfDecimalThen(n: int, rest: string)
    requires rest == [] || !IsDigit(rest[0])
    ensures ParseInt10(IntToDecimal(n) + rest) == Some(n)
  {
    var s := IntToDecimal(n) + rest;
    var digits := NatToDecimal(if n < 0 then -n else n);
    assert !IsJsWhitespace(s[0]);
    assert TrimStart(s) == s;
    assert Unsigned(s) == digits + rest;
    DigitPrefixOfDigits(digits, rest);
    assert (digits + rest)[..|digits|] == digits;
  }

  lemma {:induction false} DigitPrefixOfDigits(s: string, rest: string)
    requires AllDigits(s)
    requires rest == [] || !IsDigit(rest[0])
    ensures DigitPrefixLength(s + rest) == |s|
    decreases |s|
  {
    if s != [] {
      DigitPrefixOfDigits(s[1..], rest);
      assert (s + rest)[1..] == s[1..] + rest;
    }
  }

  // ---------------------------------------------------------------------------------------------
  // URLSearchParams serialisation
  // ---------------------------------------------------------------------------------------------

  /** Characters that the application/x-www-form-urlencoded serialiser copies unchanged. */
  predicate IsUrlSafe(c: char) {
    ('a' <= c <= 'z') || ('A' <= c <= 'Z') || IsDigit(c) || c == '*' || c == '-' || c == '.' || c == '_'
  }

  predicate UrlSafe(s: string) {
    forall i :: 0 <= i < |s| ==> IsUrlSafe(s[i])
  }

  lemma DecimalIsUrlSafe(n: int)
    ensures UrlSafe(IntToDecimal(n))
  {
  }

  /** `new URLSearchParams(record).toString()` for keys and values that need no escaping. */
  function SerializeParams(params: seq<(string, string)>): (r: string)
    requires forall i :: 0 <= i < |params| ==> UrlSafe(params[i].0) && UrlSafe(params[i].1)
    ensures params == [] <==> r == ""
  {
    if params == [] then ""
    else if |params| == 1 then params[0].0 + "=" + params[0].1
    else params[0].0 + "=" + params[0].1 + "&" + SerializeParams(params[1..])
  }

  /** Splits `s` at every occurrence of `sep`. */
  function SplitOn(s: string, sep: char): (parts: seq<string>)
    ensures |parts| >= 1
    decreases |s|
  {
    if s == [] then [""]
    else
      var rest := SplitOn(s[1..], sep);
      if s[0] == sep then [""] + rest else [[s[0]] + rest[0]] + rest[1..]
  }

  /** Splitting `a + [sep] + b` where `a` has no `sep` gives `a` followed by the parts of `b`. */
  lemma {:induction false} SplitJoined(a: string, b: string, sep: char)
    requires sep !in a
    ensures SplitOn(a + [sep] + b, sep) == [a] + SplitOn(b, sep)
    decreases |a|
  {
    if a == [] {
      assert [sep] + b == a + [sep] + b;
      assert ([sep] + b)[1..] == b;
    } else {
      SplitJoined(a[1..], b, sep);
      assert (a + [sep] + b)[1..] == a[1..] + [sep] + b;
      assert [a[0]] + a[1..] == a;
    }
  }

  lemma {:induction false} SplitPlain(a: string, sep: char)
    requires sep !in a
    ensures SplitOn(a, sep) == [a]
    decreases |a|
  {
    if a != [] {
      SplitPlain(a[1..], sep);
      assert [a[0]] + a[1..] == a;
    }
  }

  /** The query string of a non-empty parameter list, read back: `k=v` pairs split at `&` and `=`. */
  function ParseParams(q: string): seq<(string, string)> {
    var fields := SplitOn(q, '&');
    seq(|fields|, i requires 0 <= i < |fields| => KeyValue(fields[i]))
  }

  function KeyValue(field: string): (string, string) {
    var kv := SplitOn(field, '=');
    (kv[0], if |kv| >= 2 then kv[1] else "")
  }

  /** Reading a serialised parameter list back yields the list itself. */
  lemma {:induction false} ParseSerializedParams(params: seq<(string, string)>)
    requires params != []
    requires forall i :: 0 <= i < |params| ==> UrlSafe(params[i].0) && UrlSafe(params[i].1)
    ensures ParseParams(SerializeParams(params)) == params
    decreases |params|
  {
    var k, v := params[0].0, params[0].1;
    var field := k + "=" + v;
    assert '=' !in k && '&' !in k && '&' !in v && '=' !in v by {
      assert forall i :: 0 <= i < |k| ==> IsUrlSafe(k[i]);
      assert forall i :: 0 <= i < |v| ==> IsUrlSafe(v[i]);
    }
    assert '&' !in field;
    SplitJoined(k, v, '=');
    SplitPlain(v, '=');
    assert KeyValue(field) == (k, v);
    if |params| == 1 {
      SplitPlain(field, '&');
    } else {
      var rest := SerializeParams(params[1..]);
      ParseSerializedParams(params[1..]);
      assert SerializeParams(params) == field + "&" + rest;
      SplitJoined(field, rest, '&');
      var fields := SplitOn(SerializeParams(params), '&');
      assert fields == [field] + SplitOn(rest, '&');
      assert ParseParams(SerializeParams(params)) == [KeyValue(field)] + ParseParams(rest);
    }
  }
}
