/** Dynamic-value conversions of the SDK's `tool` package: `ToString`, `ToBool`, `ToInt`,
    `ToIntWithDefault`, `InArray`, `Trim`, `RandInt64`, `String2Bytes`, `Bytes2String`. */
module Val {
  import opened Wrappers
  import opened StrUtil

  /** A Go `interface{}` value as the SDK meets it in switch contexts and decoded factor configs. */
  datatype Any =
    | Nil
    | Str(s: string)
    | Bytes(b: string)          // a []byte, its bytes read as characters
    | Int(i: int)               // int and int64
    | Float(f: int)             // a float64 that holds an integral value
    | Bool(v: bool)
    | Strs(items: seq<string>)  // a []string
    | List(elems: seq<Any>)     // a []interface{}
    | Other(text: string)       // any other value, standing for its String()/JSON/%v rendering

  const MinInt64: int := -0x8000_0000_0000_0000
  const MaxInt64: int := 0x7FFF_FFFF_FFFF_FFFF

  /** A JSON string literal as `encoding/json` writes it: quotes around the escaped text. */
  function Quote(s: string): (r: string)
    ensures |r| >= 2 && r[0] == '"' && r[|r| - 1] == '"'
  {
    "\"" + Escape(s) + "\""
  }

  /** The lower-case hexadecimal digit of `k`. */
  function HexDigit(k: nat): (d: char)
    requires k < 16
    ensures '0' <= d <= '9' || 'a' <= d <= 'f'
  {
    if k < 10 then ('0' as int + k) as char else ('a' as int + k - 10) as char
  }

  /** `\u` and the four hexadecimal digits of `n`. */
  function UnicodeEscape(n: nat): (r: string)
    requires n < 0x1_0000
    ensures |r| == 6 && r[0] == '\\' && r[1] == 'u'
  {
    ['\\', 'u', HexDigit(n / 16 / 16 / 16), HexDigit(n / 16 / 16 % 16), HexDigit(n / 16 % 16), HexDigit(n % 16)]
  }

  /** Characters `encoding/json` writes as `\u` escapes: the control characters without a
      short escape, and, with HTML escaping on (the default), `<`, `>`, `&`, U+2028 and
      U+2029. */
  predicate NeedsUnicodeEscape(c: char) {
    c < ' ' || c == '<' || c == '>' || c == '&' || c == '\U{2028}' || c == '\U{2029}'
  }

  /** How `encoding/json` writes one character inside a string literal. */
  function EscapeChar(c: char): string {
    if c == '"' || c == '\\' then ['\\', c]
    else if c == '\n' then "\\n"
    else if c == '\r' then "\\r"
    else if c == '\t' then "\\t"
    else if c == '\U{0008}' then "\\b"
    else if c == '\U{000C}' then "\\f"
    else if NeedsUnicodeEscape(c) then UnicodeEscape(c as int)
    else [c]
  }

  function Escape(s: string): string {
    if s == [] then "" else EscapeChar(s[0]) + Escape(s[1..])
  }

  function HexValue(d: char): int {
    if '0' <= d <= '9' then d as int - '0' as int
    else if 'a' <= d <= 'f' then d as int - 'a' as int + 10
    else if 'A' <= d <= 'F' then d as int - 'A' as int + 10
    else -1
  }

  function Prepend(c: char, rest: Option<string>): Option<string> {
    if rest.None? then None else Some([c] + rest.value)
  }

  /** The reading of a JSON string literal's body: the escapes of the JSON grammar are
      decoded, and a bare quote or control character is an error. (A `\u` escape of a lone
      surrogate is refused rather than paired.) */
  function Unescape(t: string): (r: Option<string>)
    decreases |t|
  {
    if t == [] then Some([])
    else if t[0] != '\\' then
      if t[0] == '"' || t[0] < ' ' then None else Prepend(t[0], Unescape(t[1..]))
    else if |t| < 2 then None
    else if t[1] == '"' || t[1] == '\\' || t[1] == '/' then Prepend(t[1], Unescape(t[2..]))
    else if t[1] == 'b' then Prepend('\U{0008}', Unescape(t[2..]))
    else if t[1] == 'f' then Prepend('\U{000C}', Unescape(t[2..]))
    else if t[1] == 'n' then Prepend('\n', Unescape(t[2..]))
    else if t[1] == 'r' then Prepend('\r', Unescape(t[2..]))
    else if t[1] == 't' then Prepend('\t', Unescape(t[2..]))
    else if t[1] == 'u' && |t| >= 6 && HexValue(t[2]) >= 0 && HexValue(t[3]) >= 0 && HexValue(t[4]) >= 0 && HexValue(t[5]) >= 0 then
      var n := CodeUnit(t[2], t[3], t[4], t[5]);
      if 0xD800 <= n < 0xE000 then None else Prepend(n as char, Unescape(t[6..]))
    else None
  }

  lemma HexDigitValue(k: nat)
    requires k < 16
    ensures HexValue(HexDigit(k)) == k
  {
  }

  /** A `\u` escape reads back as its code point. */
  lemma UnicodeEscapeValue(n: nat)
    requires n < 0x1_0000
    ensures var e := UnicodeEscape(n);
      CodeUnit(e[2], e[3], e[4], e[5]) == n
  {
    var q1 := n / 16;
    var q2 := q1 / 16;
    var q3 := q2 / 16;
    HexDigitValue(q3);
    HexDigitValue(q2 % 16);
    HexDigitValue(q1 % 16);
    HexDigitValue(n % 16);
    assert n == q1 * 16 + n % 16;
    assert q1 == q2 * 16 + q1 % 16;
    assert q2 == q3 * 16 + q2 % 16;
  }

  /** A character written with a two-character escape reads back as itself. */
  lemma UnescapeShort(c: char, t: string)
    requires c == '"' || c == '\\' || c == '\n' || c == '\r' || c == '\t' || c == '\U{0008}' || c == '\U{000C}'
    ensures Unescape(EscapeChar(c) + t) == Prepend(c, Unescape(t))
  {
    assert (EscapeChar(c) + t)[2..] == t;
  }

  /** A character written as a `\u` escape reads back as itself. */
  lemma UnescapeUnicode(c: char, t: string)
    requires !(c == '"' || c == '\\' || c == '\n' || c == '\r' || c == '\t' || c == '\U{0008}' || c == '\U{000C}')
    requires NeedsUnicodeEscape(c)
    ensures Unescape(EscapeChar(c) + t) == Prepend(c, Unescape(t))
  {
    var e := UnicodeEscape(c as int);
    UnicodeEscapeValue(c as int);
    assert EscapeChar(c) == e;
    var u := e + t;
    assert u[0] == '\\' && u[1] == 'u' && u[2..6] == e[2..];
    assert HexValue(u[2]) >= 0 && HexValue(u[3]) >= 0 && HexValue(u[4]) >= 0 && HexValue(u[5]) >= 0;
    assert CodeUnit(u[2], u[3], u[4], u[5]) == c as int;
    UnescapeEscape(u);
    assert u[6..] == t;
  }

  /** The value of four hexadecimal digits. */
  function CodeUnit(h2: char, h3: char, h4: char, h5: char): int {
    ((HexValue(h2) * 16 + HexValue(h3)) * 16 + HexValue(h4)) * 16 + HexValue(h5)
  }

  /** A well-formed `\u` escape of a non-surrogate is read as its code unit. */
  lemma UnescapeEscape(u: string)
    requires |u| >= 6 && u[0] == '\\' && u[1] == 'u'
    requires HexValue(u[2]) >= 0 && HexValue(u[3]) >= 0 && HexValue(u[4]) >= 0 && HexValue(u[5]) >= 0
    requires 0 <= CodeUnit(u[2], u[3], u[4], u[5]) < 0xD800
    ensures Unescape(u) == Prepend(CodeUnit(u[2], u[3], u[4], u[5]) as char, Unescape(u[6..]))
  {
  }

  /** One escaped character reads back as itself. */
  lemma UnescapeChar(c: char, t: string)
    ensures Unescape(EscapeChar(c) + t) == Prepend(c, Unescape(t))
  {
    if c == '"' || c == '\\' || c == '\n' || c == '\r' || c == '\t' || c == '\U{0008}' || c == '\U{000C}' {
      UnescapeShort(c, t);
    } else if NeedsUnicodeEscape(c) {
      UnescapeUnicode(c, t);
    } else {
      assert EscapeChar(c) == [c];
      assert ([c] + t)[1..] == t;
    }
  }

  /** What `encoding/json` writes inside a string literal reads back as the original text. */
  lemma {:induction false} EscapeRoundTrip(s: string)
    ensures Unescape(Escape(s)) == Some(s)
  {
    if s != [] {
      UnescapeChar(s[0], Escape(s[1..]));
      EscapeRoundTrip(s[1..]);
      assert Escape(s) == EscapeChar(s[0]) + Escape(s[1..]);
      assert [s[0]] + s[1..] == s;
    }
  }

  /** One escaped character is written without control characters and without `<`, `>`, `&`. */
  lemma EscapeCharHtmlSafe(c: char)
    ensures forall i :: 0 <= i < |EscapeChar(c)| ==> !NeedsUnicodeEscape(EscapeChar(c)[i])
  {
    if !(c == '"' || c == '\\' || c == '\n' || c == '\r' || c == '\t' || c == '\U{0008}' || c == '\U{000C}')
      && NeedsUnicodeEscape(c)
    {
      var u := UnicodeEscape(c as int);
      assert forall i :: 2 <= i < 6 ==> '0' <= u[i] <= '9' || 'a' <= u[i] <= 'f';
    }
  }

  /** The escaped text holds no control character and none of `<`, `>`, `&`. */
  lemma {:induction false} EscapeHtmlSafe(s: string)
    ensures forall i :: 0 <= i < |Escape(s)| ==> !NeedsUnicodeEscape(Escape(s)[i])
  {
    if s != [] {
      EscapeHtmlSafe(s[1..]);
      var e := EscapeChar(s[0]);
      EscapeCharHtmlSafe(s[0]);
      assert forall i :: |e| <= i < |Escape(s)| ==> Escape(s)[i] == Escape(s[1..])[i - |e|];
    }
  }

  /** The JSON text `json.Marshal` gives for a value inside a slice. */
  function JsonText(v: Any): string
    decreases v, 1
  {
    match v
    case Nil => "null"
    case Str(s) => Quote(s)
    case Bytes(b) => Quote(b)
    case Int(i) => IntToString(i)
    case Float(f) => IntToString(f)
    case Bool(b) => if b then "true" else "false"
    case Strs(items) => "[" + QuotedItems(items) + "]"
    case List(elems) => "[" + JsonItems(v, 0) + "]"
    case Other(t) => Quote(t)
  }

  function QuotedItems(items: seq<string>): string {
    if items == [] then ""
    else if |items| == 1 then Quote(items[0])
    else Quote(items[0]) + "," + QuotedItems(items[1..])
  }

  /** The comma-separated JSON texts of `v.elems[i..]`. */
  function JsonItems(v: Any, i: nat): string
    requires v.List?
    decreases v, 0, |v.elems| - i
  {
    if i >= |v.elems| then ""
    else if i == |v.elems| - 1 then JsonText(v.elems[i])
    else JsonText(v.elems[i]) + "," + JsonItems(v, i + 1)
  }

  /** `tool.ToString`: nil is "", strings and bytes are their text, integers decimal,
      booleans "true"/"false", slices their JSON text. */
  function ToString(v: Any): (r: string)
    ensures v.Str? ==> r == v.s
    ensures v.Nil? ==> r == ""
    ensures (v.Strs? || v.List?) ==> r != "" && r[0] == '[' && r[|r| - 1] == ']'
    ensures v.Strs? && |v.items| == 1 ==> r == "[\"" + Escape(v.items[0]) + "\"]"
  {
    match v
    case Nil => ""
    case Str(s) => s
    case Bytes(b) => b
    case Int(i) => IntToString(i)
    case Float(f) => IntToString(f)
    case Bool(b) => if b then "true" else "false"
    case Strs(_) => JsonText(v)
    case List(_) => JsonText(v)
    case Other(t) => t
  }

  /** A one-element string slice is written with HTML escaping: `<` becomes `\u003c`. */
  lemma ToStringEscapesHtml()
    ensures ToString(Strs(["a<b"])) == "[\"a\\u003cb\"]"
  {
    assert Escape("a<b") == "a\\u003cb" by {
      assert Escape("b") == "b";
      assert "a<b"[1..] == "<b" && "<b"[1..] == "b";
    }
  }

  /** Two integers, or two integral floats, have the same `ToString` exactly when they are equal. */
  lemma ToStringIntInjective(a: int, b: int)
    ensures ToString(Int(a)) == ToString(Int(b)) <==> a == b
    ensures ToString(Float(a)) == ToString(Float(b)) <==> a == b
    ensures ToString(Int(a)) == ToString(Float(b)) <==> a == b
  {
    if IntToString(a) == IntToString(b) {
      IntToStringInjective(a, b);
    }
  }

  /** `tool.ToBool`. */
  function ToBool(v: Any): (r: bool)
    ensures v.Nil? ==> !r
    ensures v.Str? ==> (r <==> v.s in {"true", "1", "yes"})
    ensures v.Int? ==> (r <==> v.i != 0)
    ensures v.Bool? ==> r == v.v
  {
    match v
    case Nil => false
    case Bool(b) => b
    case Str(s) => s == "true" || s == "1" || s == "yes"
    case Int(i) => IntToStringZero(i); ToString(v) != "0"
    case Float(f) => f != 0
    case _ => ToString(v) != ""
  }

  lemma IntToStringZero(i: int)
    ensures IntToString(i) == "0" <==> i == 0
  {
    if IntToString(i) == "0" {
      IntToStringInjective(i, 0);
    }
  }

  /** `strconv.ParseInt(s, 10, 64)` (and `strconv.Atoi` on a 64-bit platform): an optional sign
      followed by at least one decimal digit, within the int64 range. */
  function ParseInt64(s: string): (r: Option<int>)
    ensures r.Some? ==> MinInt64 <= r.value <= MaxInt64
  {
    var neg := s != [] && s[0] == '-';
    var digits := if s != [] && (s[0] == '-' || s[0] == '+') then s[1..] else s;
    if digits == [] || !AllDigits(digits) then None
    else
      var m: int := DigitsValue(digits);
      var n := if neg then -m else m;
      if MinInt64 <= n <= MaxInt64 then Some(n) else None
  }

  /** Decimal text of an int64 parses back to the same number. */
  lemma ParseIntToString(n: int)
    requires MinInt64 <= n <= MaxInt64
    ensures ParseInt64(IntToString(n)) == Some(n)
  {
    if n < 0 {
      NatToStringValue(-n);
      ParseNegative(NatToString(-n));
    } else {
      NatToStringValue(n);
      ParseDigits(NatToString(n));
    }
  }

  /** Plain digits parse to their value when it fits. */
  lemma ParseDigits(d: string)
    requires d != [] && AllDigits(d)
    ensures ParseInt64(d) == if DigitsValue(d) <= MaxInt64 then Some(DigitsValue(d)) else None
  {
    assert IsDigit(d[0]);
  }

  /** A minus sign before plain digits negates their value. */
  lemma ParseNegative(d: string)
    requires d != [] && AllDigits(d)
    ensures ParseInt64("-" + d) == if -(DigitsValue(d) as int) >= MinInt64 then Some(-(DigitsValue(d) as int)) else None
  {
    assert ("-" + d)[1..] == d;
  }

  const MaxUint64: int := 0xFFFF_FFFF_FFFF_FFFF

  /** Whether `strconv.IsPrint` holds, up to the non-printable characters modelled: the C0
      and C1 controls, DEL, the no-break space, the soft hyphen, the byte-order mark and the
      Unicode space, line and paragraph separators. */
  predicate GoPrintable(c: char) {
    && !(c < ' ') && c != '\U{007F}' && !('\U{0080}' <= c <= '\U{009F}')
    && c != '\U{00A0}' && c != '\U{00AD}' && c != '\U{FEFF}' && !IsUnicodeSeparator(c)
  }

  /** How `strconv.Quote` writes one character between the quotes. */
  function GoQuoteChar(c: char): (r: string)
    ensures GoPrintable(c) && c != '"' && c != '\\' ==> r == [c]
    ensures r != [] && (r[0] == '\\' <==> r != [c])
  {
    if c == '"' || c == '\\' then ['\\', c]
    else if GoPrintable(c) then [c]
    else if c == '\U{0007}' then "\\a"
    else if c == '\U{0008}' then "\\b"
    else if c == '\U{000C}' then "\\f"
    else if c == '\n' then "\\n"
    else if c == '\r' then "\\r"
    else if c == '\t' then "\\t"
    else if c == '\U{000B}' then "\\v"
    else if c < ' ' || c == '\U{007F}' then ['\\', 'x', HexDigit(c as int / 16), HexDigit(c as int % 16)]
    else UnicodeEscape(c as int)
  }

  function GoQuoteBody(s: string): string {
    if s == [] then "" else GoQuoteChar(s[0]) + GoQuoteBody(s[1..])
  }

  /** `strconv.Quote`: the text between double quotes, with Go's escapes. */
  function GoQuote(s: string): (r: string)
    ensures |r| >= 2 && r[0] == '"' && r[|r| - 1] == '"'
  {
    "\"" + GoQuoteBody(s) + "\""
  }

  /** Text made of printable characters other than the quote and the backslash is quoted
      as it stands. */
  lemma {:induction false} GoQuotePlain(s: string)
    requires forall i :: 0 <= i < |s| ==> GoPrintable(s[i]) && s[i] != '"' && s[i] != '\\'
    ensures GoQuote(s) == "\"" + s + "\""
  {
    GoQuoteBodyPlain(s);
  }

  lemma {:induction false} GoQuoteBodyPlain(s: string)
    requires forall i :: 0 <= i < |s| ==> GoPrintable(s[i]) && s[i] != '"' && s[i] != '\\'
    ensures GoQuoteBody(s) == s
  {
    if s != [] {
      GoQuoteBodyPlain(s[1..]);
      assert [s[0]] + s[1..] == s;
    }
  }

  const InvalidSyntax: string := "invalid syntax"
  const OutOfRange: string := "value out of range"

  /** The digit loop of `strconv.ParseUint` in base 10 from position `i`, with `acc` the
      value read so far: a non-digit is a syntax error, and a digit that takes the value past
      the largest uint64 is a range error, whichever comes first. */
  function ScanUint64(s: string, i: nat, acc: nat): (r: Result<nat>)
    requires i <= |s|
    ensures r.Err? ==> r.msg == InvalidSyntax || r.msg == OutOfRange
    decreases |s| - i
  {
    if i == |s| then Ok(acc)
    else if !IsDigit(s[i]) then Err(InvalidSyntax)
    else if acc * 10 + (s[i] as int - '0' as int) > MaxUint64 then Err(OutOfRange)
    else ScanUint64(s, i + 1, acc * 10 + (s[i] as int - '0' as int))
  }

  /** A longer run of digits is worth at least as much as its prefix. */
  lemma {:induction false} DigitsValuePrefix(s: string, k: nat)
    requires AllDigits(s) && k <= |s|
    ensures AllDigits(s[..k]) && DigitsValue(s[..k]) <= DigitsValue(s)
    decreases |s|
  {
    if k < |s| {
      var t := s[..|s| - 1];
      DigitsValuePrefix(t, k);
      assert t[..k] == s[..k];
    } else {
      assert s[..k] == s;
    }
  }

  /** Reading on from a prefix's value: the loop succeeds exactly on digits worth at most the
      largest uint64, and then yields their value; on digits alone it never reports syntax. */
  lemma {:induction false} ScanUint64Value(s: string, i: nat, acc: nat)
    requires i <= |s| && AllDigits(s[..i]) && acc == DigitsValue(s[..i]) && acc <= MaxUint64
    ensures ScanUint64(s, i, acc).Ok? <==> AllDigits(s) && DigitsValue(s) <= MaxUint64
    ensures ScanUint64(s, i, acc).Ok? ==> ScanUint64(s, i, acc).value == DigitsValue(s)
    ensures AllDigits(s) ==> ScanUint64(s, i, acc) != Err(InvalidSyntax)
    decreases |s| - i
  {
    if i == |s| {
      assert s[..i] == s;
    } else if IsDigit(s[i]) {
      var acc' := acc * 10 + (s[i] as int - '0' as int);
      var p := s[..i + 1];
      assert p[..|p| - 1] == s[..i];
      assert AllDigits(p) && DigitsValue(p) == acc';
      if acc' > MaxUint64 {
        if AllDigits(s) {
          DigitsValuePrefix(s, i + 1);
        }
      } else {
        ScanUint64Value(s, i + 1, acc');
      }
    } else {
      assert !IsDigit(s[i]);
    }
  }

  /** A non-digit reached before the value overflows is a syntax error. */
  lemma {:induction false} ScanUint64Syntax(s: string, i: nat, acc: nat, k: nat)
    requires i <= k < |s| && AllDigits(s[..k]) && !IsDigit(s[k]) && DigitsValue(s[..k]) <= MaxUint64
    requires acc == DigitsValue(s[..i])
    ensures ScanUint64(s, i, acc) == Err(InvalidSyntax)
    decreases k - i
  {
    assert s[..k][..i] == s[..i];
    if i < k {
      assert IsDigit(s[..k][i]);
      var p := s[..i + 1];
      assert p[..i] == s[..i];
      DigitsValuePrefix(s[..k], i + 1);
      assert s[..k][..i + 1] == p;
      ScanUint64Syntax(s, i + 1, acc * 10 + (s[i] as int - '0' as int), k);
    }
  }

  /** Digits whose value overflows before any non-digit is reached are a range error. */
  lemma {:induction false} ScanUint64Range(s: string, i: nat, acc: nat, k: nat)
    requires i <= k < |s| && AllDigits(s[..k + 1]) && DigitsValue(s[..k + 1]) > MaxUint64
    requires acc == DigitsValue(s[..i])
    ensures ScanUint64(s, i, acc) == Err(OutOfRange)
    decreases k - i
  {
    assert s[..k + 1][..i] == s[..i];
    assert IsDigit(s[..k + 1][i]);
    var p := s[..i + 1];
    assert p[..i] == s[..i];
    var acc' := acc * 10 + (s[i] as int - '0' as int);
    assert DigitsValue(p) == acc';
    if acc' <= MaxUint64 {
      ScanUint64Range(s, i + 1, acc', k);
    }
  }

  /** The text `strconv.Atoi` reads as digits, after an optional sign. */
  function AtoiDigits(s: string): string {
    if s != [] && (s[0] == '-' || s[0] == '+') then s[1..] else s
  }

  /** The error `strconv.Atoi` reports for `s`, with its reason. */
  function AtoiError(s: string, reason: string): string {
    "strconv.Atoi: parsing " + GoQuote(s) + ": " + reason
  }

  /** `strconv.Atoi` on 64-bit Go, giving the reason of a failure: an optional sign and
      base-10 digits; an empty run of digits or a non-digit is a syntax error, and a value
      outside int64 a range error. */
  function AtoiReason(s: string): (r: Result<int>)
    ensures r.Ok? <==> ParseInt64(s).Some?
    ensures r.Ok? ==> r.value == ParseInt64(s).value
    ensures r.Err? ==> r.msg == InvalidSyntax || r.msg == OutOfRange
    ensures AtoiDigits(s) == [] ==> r == Err(InvalidSyntax)
    ensures AtoiDigits(s) != [] && AllDigits(AtoiDigits(s)) && r.Err? ==> r == Err(OutOfRange)
  {
    var digits := AtoiDigits(s);
    var neg := s != [] && s[0] == '-';
    assert digits[..0] == [];
    ScanUint64Value(digits, 0, 0);
    if digits == [] then Err(InvalidSyntax)
    else
      match ScanUint64(digits, 0, 0)
      case Err(reason) => Err(reason)
      case Ok(u) =>
        var n: int := if neg then -(u as int) else u;
        if MinInt64 <= n <= MaxInt64 then Ok(n) else Err(OutOfRange)
  }

  /** `strconv.Atoi`: the value, or the `*NumError` text naming the quoted input and the
      reason. */
  function Atoi(s: string): (r: Result<int>)
    ensures r.Ok? <==> ParseInt64(s).Some?
    ensures r.Ok? ==> r.value == ParseInt64(s).value
    ensures r.Err? ==> r == Err(AtoiError(s, AtoiReason(s).msg))
    ensures r.Err? ==> r.msg == AtoiError(s, InvalidSyntax) || r.msg == AtoiError(s, OutOfRange)
  {
    match AtoiReason(s)
    case Ok(n) => Ok(n)
    case Err(reason) => Err(AtoiError(s, reason))
  }

  /** A non-digit met while the value still fits is reported as invalid syntax. */
  lemma AtoiSyntax(s: string, k: nat)
    requires var d := AtoiDigits(s);
      k < |d| && AllDigits(d[..k]) && !IsDigit(d[k]) && DigitsValue(d[..k]) <= MaxUint64
    ensures AtoiReason(s) == Err(InvalidSyntax)
    ensures Atoi(s) == Err(AtoiError(s, InvalidSyntax))
  {
    var d := AtoiDigits(s);
    assert d[..0] == [];
    ScanUint64Syntax(d, 0, 0, k);
  }

  /** Digits that overflow uint64 before any non-digit are reported as out of range. */
  lemma AtoiRange(s: string, k: nat)
    requires var d := AtoiDigits(s);
      k < |d| && AllDigits(d[..k + 1]) && DigitsValue(d[..k + 1]) > MaxUint64
    ensures AtoiReason(s) == Err(OutOfRange)
    ensures Atoi(s) == Err(AtoiError(s, OutOfRange))
  {
    var d := AtoiDigits(s);
    assert d[..0] == [];
    ScanUint64Range(d, 0, 0, k);
  }

  lemma GoQuoteLetters()
    ensures GoQuote("abc") == "\"abc\""
  {
    var s := "abc";
    assert GoQuoteChar('a') == "a" && GoQuoteChar('b') == "b" && GoQuoteChar('c') == "c";
    assert GoQuoteBody(s[2..]) == "c";
    assert GoQuoteBody(s[1..]) == "bc";
  }

  /** `strconv.Atoi("abc")` reports `strconv.Atoi: parsing "abc": invalid syntax`. */
  lemma AtoiLetters()
    ensures Atoi("abc") == Err("strconv.Atoi: parsing \"abc\": invalid syntax")
  {
    AtoiSyntax("abc", 0);
    AtoiLettersText();
  }

  lemma AtoiLettersText()
    ensures AtoiError("abc", InvalidSyntax) == "strconv.Atoi: parsing \"abc\": invalid syntax"
  {
    GoQuoteLetters();
    assert AtoiError("abc", InvalidSyntax) == "strconv.Atoi: parsing " + "\"abc\"" + ": " + InvalidSyntax;
  }

  /** `strconv.Quote("a<b")` leaves `<` as it is, where the JSON encoder writes `\u003c`. */
  lemma GoQuoteKeepsAngle()
    ensures GoQuote("a<b") == "\"a<b\""
  {
    var s := "a<b";
    assert GoQuoteChar('a') == "a" && GoQuoteChar('<') == "<" && GoQuoteChar('b') == "b";
    assert GoQuoteBody(s[2..]) == "b";
    assert GoQuoteBody(s[1..]) == "<b";
  }

  /** `strconv.Atoi("a<b")` quotes the text as Go does. */
  lemma AtoiQuotesGoStyle()
    ensures Atoi("a<b") == Err("strconv.Atoi: parsing \"a<b\": invalid syntax")
  {
    AtoiSyntax("a<b", 0);
    AtoiQuotesGoStyleText();
  }

  lemma AtoiQuotesGoStyleText()
    ensures AtoiError("a<b", InvalidSyntax) == "strconv.Atoi: parsing \"a<b\": invalid syntax"
  {
    GoQuoteKeepsAngle();
    assert AtoiError("a<b", InvalidSyntax) == "strconv.Atoi: parsing " + "\"a<b\"" + ": " + InvalidSyntax;
  }

  /** Go reads digits from left to right, so 2^64 followed by a letter is reported as out
      of range rather than as invalid syntax. */
  lemma AtoiRangeBeforeSyntax()
    ensures var s := NatToString(MaxUint64 + 1) + "x"; Atoi(s) == Err(AtoiError(s, OutOfRange))
  {
    var t := NatToString(MaxUint64 + 1);
    var s := t + "x";
    NatToStringValue(MaxUint64 + 1);
    assert IsDigit(s[0]) && AtoiDigits(s) == s;
    assert s[..|t|] == t;
    AtoiRange(s, |t| - 1);
  }

  /** `tool.ToInt`: nil and non-numeric kinds are errors, "" is 0, strings go through Atoi,
      booleans are 1/0. */
  function ToInt(v: Any): (r: Result<int>)
    ensures v.Nil? ==> r.Err?
    ensures v.Str? && v.s == "" ==> r == Ok(0)
    ensures v.Str? && v.s != "" ==> (r.Ok? <==> ParseInt64(v.s).Some?)
    ensures v.Str? && v.s != "" && r.Err? ==>
      r.msg == AtoiError(v.s, InvalidSyntax) || r.msg == AtoiError(v.s, OutOfRange)
  {
    match v
    case Nil => Err("cannot convert nil to int")
    case Int(i) => Ok(i)
    case Float(f) => Ok(f)
    case Str(s) =>
      if s == "" then Ok(0)
      else Atoi(s)
    case Bool(b) => Ok(if b then 1 else 0)
    case _ => Err("cannot convert to int")
  }

  /** `ToInt("abc")` passes on the error of `strconv.Atoi` unchanged. */
  lemma ToIntLetters()
    ensures ToInt(Str("abc")) == Err("strconv.Atoi: parsing \"abc\": invalid syntax")
  {
    AtoiLetters();
  }

  /** `tool.ToIntWithDefault`: the default is returned exactly when `ToInt` fails. */
  function ToIntWithDefault(v: Any, default: int): (r: int)
    ensures ToInt(v).Err? ==> r == default
    ensures ToInt(v).Ok? ==> r == ToInt(v).value
  {
    match ToInt(v)
    case Ok(n) => n
    case Err(_) => default
  }

  /** `tool.InArray`: false on an empty slice, otherwise membership. */
  method InArray<K(==)>(target: K, arrays: seq<K>) returns (found: bool)
    ensures found <==> target in arrays
  {
    if |arrays| == 0 {
      return false;
    }
    var i := 0;
    while i < |arrays|
      invariant 0 <= i <= |arrays|
      invariant target !in arrays[..i]
    {
      if arrays[i] == target {
        return true;
      }
      i := i + 1;
    }
    return false;
  }

  /** The cut set of `tool.Trim`: " \n\r\t\v" and NUL. */
  predicate TrimCut(c: char) {
    c == ' ' || c == '\n' || c == '\r' || c == '\t' || c == '\U{000B}' || c == '\0'
  }

  /** `tool.Trim`: `strings.Trim` with that cut set on both ends. */
  function Trim(s: string): (r: string)
    ensures r != [] ==> !TrimCut(r[0]) && !TrimCut(r[|r| - 1])
    ensures exists k ::
      && OccursAt(s, r, k)
      && (forall j :: 0 <= j < k ==> TrimCut(s[j]))
      && (forall j :: k + |r| <= j < |s| ==> TrimCut(s[j]))
    ensures (forall i :: 0 <= i < |s| ==> !TrimCut(s[i])) ==> r == s
  {
    var l := TrimLeft(s, TrimCut);
    var t := TrimRight(l, TrimCut);
    TrimLeftShape(s, TrimCut);
    TrimRightShape(l, TrimCut);
    var k := |s| - |l|;
    assert t == s[k..][..|t|];
    assert OccursAt(s, t, k);
    assert forall j :: k + |t| <= j < |s| ==> s[j] == l[j - k];
    assert t != [] ==> t[0] == l[0];
    t
  }

  /** An integer reduced to Go's int64, wrapping around as Go's arithmetic does. */
  function Wrap64(x: int): (r: int)
    ensures MinInt64 <= r <= MaxInt64
    ensures MinInt64 <= x <= MaxInt64 ==> r == x
    ensures MaxInt64 < x <= MaxInt64 - MinInt64 ==> r == x + 2 * MinInt64
  {
    (x - MinInt64) % 0x1_0000_0000_0000_0000 + MinInt64
  }

  /** `tool.RandInt64` on int64 bounds: `max` itself on the degenerate bounds; otherwise
      `Int63n(max - min) + min`, where the difference is computed in 64 bits and `draw` is
      the value the random source returned. `Int63n` panics (`None`) when that difference
      wraps to a value that is not positive. */
  function RandInt64(min: int, max: int, draw: int): (r: Option<int>)
    requires MinInt64 <= min <= MaxInt64 && MinInt64 <= max <= MaxInt64
    requires !(min >= max || min == 0 || max == 0) && max - min <= MaxInt64 ==> 0 <= draw < max - min
    ensures (min >= max || min == 0 || max == 0) ==> r == Some(max)
    ensures !(min >= max || min == 0 || max == 0) ==> (r.None? <==> max - min > MaxInt64)
    ensures !(min >= max || min == 0 || max == 0) && r.Some? ==> min <= r.value < max
  {
    if min >= max || min == 0 || max == 0 then Some(max)
    else
      var n := Wrap64(max - min);
      if n <= 0 then None else Some(draw + min)
  }

  /** Bounds six quintillion either side of zero overflow the difference, so the draw panics. */
  lemma RandInt64WideBoundsPanic(draw: int)
    ensures RandInt64(-6_000_000_000_000_000_000, 6_000_000_000_000_000_000, draw).None?
  {
  }

  /** A Go byte slice: `nil` or a slice, possibly empty, of bytes. */
  datatype ByteSlice = NilSlice | Slice(data: string)

  /** `tool.String2Bytes`: "" gives nil. */
  function String2Bytes(s: string): (r: ByteSlice)
    ensures r.NilSlice? <==> s == ""
    ensures r.Slice? ==> r.data == s
  {
    if s == "" then NilSlice else Slice(s)
  }

  /** `tool.Bytes2String`: nil gives "". */
  function Bytes2String(b: ByteSlice): (r: string)
    ensures b.NilSlice? ==> r == ""
    ensures b.Slice? ==> r == b.data
  {
    if b.NilSlice? then "" else b.data
  }

  /** Converting a string to bytes and back is the identity. */
  lemma StringBytesRoundTrip(s: string)
    ensures Bytes2String(String2Bytes(s)) == s
  {
  }

  /** Converting bytes to a string and back is the identity, except that an empty non-nil
      slice comes back as nil. */
  lemma BytesStringRoundTrip(b: ByteSlice)
    ensures String2Bytes(Bytes2String(b)) == if b == Slice("") then NilSlice else b
  {
  }

  /** A `*bool`: a heap cell holding one flag. */
  class BoolRef {
    var value: bool

    constructor (value: bool)
      ensures this.value == value
    {
      this.value := value;
    }
  }

  /** `tool.Bool`: a pointer to a new cell holding the flag, so two calls never alias. */
  method Bool(b: bool) returns (p: BoolRef)
    ensures fresh(p) && p.value == b
  {
    p := new BoolRef(b);
  }
}
