/** `canonical_json` (app/crypto_utils.py): `json.dumps` with sorted keys, no spaces and ASCII output.
    Escaping follows section 7 of RFC 8259. A dictionary is a map, so insertion order is not part of
    a value. A parser undoes the printer, hence equal texts come from equal values. */
module Json {
  import opened Text

  datatype Json =
    | JNull
    | JBool(b: bool)
    | JNum(n: int)
    | JStr(s: string)
    | JArr(items: seq<Json>)
    | JObj(fields: map<string, Json>)

  // ------------------------------------------------------------------ the printer

  function HexDigit(d: nat): char
    requires d < 16
  {
    (if d < 10 then '0' as int + d else 'a' as int + d - 10) as char
  }

  function Hex4(n: nat): string
    requires n < 0x10000
  {
    [HexDigit(n / 4096), HexDigit(n / 256 % 16), HexDigit(n / 16 % 16), HexDigit(n % 16)]
  }

  predicate ScalarValue(n: int) {
    0 <= n < 0xd800 || 0xe000 <= n <= 0x10ffff
  }

  /** A surrogate pair after its first `\u`. */
  function Pair(hi: nat, lo: nat): string
    requires hi < 0x10000 && lo < 0x10000
  {
    Hex4(hi) + "\\u" + Hex4(lo)
  }

  function EscapeCode(n: nat): string
    requires ScalarValue(n)
  {
    if n < 0x10000 then Hex4(n) else Pair(0xd800 + (n - 0x10000) / 1024, 0xdc00 + (n - 0x10000) % 1024)
  }

  /** The letter of a two-character escape. */
  function Letter(c: char): Option<char> {
    if c == '\"' || c == '\\' then Some(c)
    else if c == '\n' then Some('n')
    else if c == '\r' then Some('r')
    else if c == '\t' then Some('t')
    else if c as int == 12 then Some('f')
    else if c as int == 8 then Some('b')
    else None
  }

  function Escape(c: char): string {
    if Letter(c).Some? then ['\\', Letter(c).value]
    else if ' ' <= c <= '~' then [c]
    else "\\u" + EscapeCode(c as int)
  }

  function PrintChars(s: string): string {
    if |s| == 0 then "" else Escape(s[0]) + PrintChars(s[1..])
  }

  function PrintString(s: string): string {
    "\"" + PrintChars(s) + "\""
  }

  function DigitChar(d: nat): char
    requires d < 10
  {
    ('0' as int + d) as char
  }

  function PrintNat(n: nat): string {
    if n < 10 then [DigitChar(n)] else PrintNat(n / 10) + [DigitChar(n % 10)]
  }

  function PrintInt(n: int): string {
    if n < 0 then "-" + PrintNat(-n) else PrintNat(n)
  }

  /** Exactly the printable ASCII characters but for quote and backslash stand for themselves. */
  lemma EscapesIff(c: char)
    ensures Escape(c) == [c] <==> ' ' <= c <= '~' && c != '\"' && c != '\\'
  {
  }

  /** The characters written as a letter behind a backslash. */
  lemma LettersAre()
    ensures Escape('\"') == "\\\"" && Escape('\\') == "\\\\" && Escape('\n') == "\\n" && Escape('\r') == "\\r" && Escape('\t') == "\\t"
    ensures Escape(8 as char) == "\\b" && Escape(12 as char) == "\\f" && Escape(0 as char) == "\\u0000" && Escape(127 as char) == "\\u007f"
  {
  }

  predicate Ascii(s: string) {
    forall c :: c in s ==> ' ' <= c <= '~'
  }

  lemma {:induction false} CharsAreAscii(s: string)
    ensures Ascii(PrintString(s)) && Ascii(PrintChars(s))
  {
    if |s| > 0 {
      CharsAreAscii(s[1..]);
      if Letter(s[0]).None? && !(' ' <= s[0] <= '~') { CodeIsAscii(s[0] as int); }
    }
  }

  lemma CodeIsAscii(n: nat)
    requires ScalarValue(n)
    ensures Ascii("\\u" + EscapeCode(n))
  {
  }

  lemma {:induction false} NatIsAscii(n: nat)
    ensures Ascii(PrintNat(n))
  {
    if n >= 10 { NatIsAscii(n / 10); }
  }

  predicate Least(x: string, ks: set<string>) {
    x in ks && forall y :: y in ks ==> StrLe(x, y)
  }

  lemma LeastUnique(ks: set<string>)
    ensures forall x, y :: Least(x, ks) && Least(y, ks) ==> x == y
  {
    forall x, y | Least(x, ks) && Least(y, ks) ensures x == y { StrLeTotal(x, y); }
  }

  lemma {:induction false} LeastExists(ks: set<string>)
    requires ks != {}
    ensures exists x :: Least(x, ks)
    decreases |ks|
  {
    var k :| k in ks;
    StrLeTotal(k, k);
    if ks - {k} != {} {
      LeastExists(ks - {k});
      var x :| Least(x, ks - {k});
      StrLeTotal(x, k);
      if StrLe(k, x) {
        forall y | y in ks ensures StrLe(k, y) {
          if y != k { StrLeTransitive(k, x, y); }
        }
        assert Least(k, ks);
      } else {
        assert Least(x, ks);
      }
    } else {
      assert ks == {k} && Least(k, ks);
    }
  }

  /** `sort_keys=True`. */
  function SortedKeys(ks: set<string>): (r: seq<string>)
    ensures forall k :: k in r <==> k in ks
    ensures forall i, j :: 0 <= i < j < |r| ==> StrLe(r[i], r[j]) && r[i] != r[j]
    decreases |ks|
  {
    if ks == {} then [] else
      LeastExists(ks);
      LeastUnique(ks);
      var x :| x in ks && Least(x, ks);
      [x] + SortedKeys(ks - {x})
  }

  function Print(v: Json): string
    decreases v
  {
    match v
    case JNull => "null"
    case JBool(b) => if b then "true" else "false"
    case JNum(n) => PrintInt(n)
    case JStr(s) => PrintString(s)
    case JArr(items) => if items == [] then "[]" else "[" + PrintItems(v, 0) + "]"
    case JObj(fields) => if fields == map[] then "{}" else "{" + PrintFields(v, SortedKeys(fields.Keys)) + "}"
  }

  function PrintItems(v: Json, from: nat): string
    requires v.JArr? && from < |v.items|
    decreases v, |v.items| - from
  {
    if from + 1 == |v.items| then Print(v.items[from])
    else Print(v.items[from]) + "," + PrintItems(v, from + 1)
  }

  function PrintFields(v: Json, keys: seq<string>): string
    requires v.JObj? && keys != [] && forall k :: k in keys ==> k in v.fields
    decreases v, |keys|
  {
    var one := PrintString(keys[0]) + ":" + Print(v.fields[keys[0]]);
    if |keys| == 1 then one else one + "," + PrintFields(v, keys[1..])
  }

  lemma IntIsAscii(n: int)
    ensures Ascii(PrintInt(n))
  {
    NatIsAscii(if n < 0 then -n else n);
  }

  lemma Framed(open: string, inside: string, close: string)
    requires Ascii(open) && Ascii(inside) && Ascii(close)
    ensures Ascii(open + inside + close)
  {
  }

  /** Canonical text is ASCII without control characters, whatever the value holds. */
  lemma {:induction false} TextIsAscii(v: Json)
    ensures Ascii(Print(v))
    decreases v, 1
  {
    match v {
      case JNum(n) => IntIsAscii(n);
      case JStr(s) => CharsAreAscii(s);
      case JArr(items) => if items != [] { ItemsAreAscii(v, 0); Framed("[", PrintItems(v, 0), "]"); }
      case JObj(fields) =>
        if fields != map[] {
          FieldsAreAscii(v, SortedKeys(fields.Keys));
          Framed("{", PrintFields(v, SortedKeys(fields.Keys)), "}");
        }
      case _ =>
    }
  }

  lemma {:induction false} ItemsAreAscii(v: Json, from: nat)
    requires v.JArr? && from < |v.items|
    ensures Ascii(PrintItems(v, from))
    decreases v, 0, |v.items| - from
  {
    TextIsAscii(v.items[from]);
    if from + 1 < |v.items| { ItemsAreAscii(v, from + 1); }
  }

  lemma {:induction false} FieldsAreAscii(v: Json, keys: seq<string>)
    requires v.JObj? && keys != [] && forall k :: k in keys ==> k in v.fields
    ensures Ascii(PrintFields(v, keys))
    decreases v, 0, |keys|
  {
    CharsAreAscii(keys[0]);
    TextIsAscii(v.fields[keys[0]]);
    if |keys| > 1 { FieldsAreAscii(v, keys[1..]); }
  }

  // ------------------------------------------------------------------ a parser

  datatype Parsed<+T> = Bad | Good(value: T, rest: string)

  function HexValue(c: char): int {
    if '0' <= c <= '9' then c as int - '0' as int
    else if 'a' <= c <= 'f' then c as int - 'a' as int + 10
    else -1
  }

  predicate IsHex4(s: string) {
    |s| >= 4 && forall i :: 0 <= i < 4 ==> HexValue(s[i]) >= 0
  }

  function Hex4Value(s: string): nat
    requires IsHex4(s)
  {
    4096 * HexValue(s[0]) + 256 * HexValue(s[1]) + 16 * HexValue(s[2]) + HexValue(s[3])
  }

  /** The hexadecimal escape after `\u`: a code point, or a surrogate pair. */
  function ParseCode(s: string): (r: Parsed<char>)
    ensures r.Good? ==> |r.rest| < |s|
  {
    if !IsHex4(s) then Bad
    else
      var hi := Hex4Value(s);
      if ScalarValue(hi) then Good(hi as char, s[4..])
      else if hi < 0xdc00 && |s| >= 10 && s[4] == '\\' && s[5] == 'u' && IsHex4(s[6..]) && 0xdc00 <= Hex4Value(s[6..]) < 0xe000 then
        Good((0x10000 + (hi - 0xd800) * 1024 + (Hex4Value(s[6..]) - 0xdc00)) as char, s[10..])
      else Bad
  }

  function Unletter(c: char): Option<char> {
    if c == '\"' || c == '\\' then Some(c)
    else if c == 'n' then Some('\n')
    else if c == 'r' then Some('\r')
    else if c == 't' then Some('\t')
    else if c == 'f' then Some(12 as char)
    else if c == 'b' then Some(8 as char)
    else None
  }

  function ParseChar(s: string): (r: Parsed<char>)
    ensures r.Good? ==> |r.rest| < |s|
  {
    if |s| == 0 then Bad
    else if s[0] != '\\' then Good(s[0], s[1..])
    else if |s| == 1 then Bad
    else if s[1] == 'u' then ParseCode(s[2..])
    else if Unletter(s[1]).Some? then Good(Unletter(s[1]).value, s[2..])
    else Bad
  }

  /** The characters up to the closing quote. */
  function ParseChars(s: string): (r: Parsed<string>)
    ensures r.Good? ==> |r.rest| < |s|
    decreases |s|
  {
    if |s| == 0 then Bad
    else if s[0] == '\"' then Good("", s[1..])
    else match ParseChar(s)
      case Bad => Bad
      case Good(c, rest) =>
        match ParseChars(rest)
        case Bad => Bad
        case Good(tail, after) => Good([c] + tail, after)
  }

  predicate IsDigit(c: char) {
    '0' <= c <= '9'
  }

  function Digits(s: string): (n: nat)
    ensures n <= |s| && forall i :: 0 <= i < n ==> IsDigit(s[i])
  {
    if |s| == 0 || !IsDigit(s[0]) then 0 else 1 + Digits(s[1..])
  }

  function DigitOf(c: char): nat
    requires IsDigit(c)
  {
    c as int - '0' as int
  }

  function DigitsValue(s: string): nat
    requires forall i :: 0 <= i < |s| ==> IsDigit(s[i])
  {
    if |s| == 0 then 0 else 10 * DigitsValue(s[..|s| - 1]) + DigitOf(s[|s| - 1])
  }

  function ParseNat(s: string): (r: Parsed<int>)
    ensures r.Good? ==> |r.rest| < |s|
  {
    var d := Digits(s);
    if d == 0 then Bad else Good(DigitsValue(s[..d]), s[d..])
  }

  function ParseWord(s: string, word: string, v: Json): (r: Parsed<Json>)
    requires word != ""
    ensures r.Good? ==> |r.rest| < |s|
  {
    if word <= s then Good(v, s[|word|..]) else Bad
  }

  function ParseInt(s: string): (r: Parsed<Json>)
    ensures r.Good? ==> |r.rest| < |s|
  {
    if |s| > 0 && s[0] == '-' then (match ParseNat(s[1..]) case Bad => Bad case Good(n, rest) => Good(JNum(-n), rest))
    else (match ParseNat(s) case Bad => Bad case Good(n, rest) => Good(JNum(n), rest))
  }

  function ParseValue(s: string): (r: Parsed<Json>)
    ensures r.Good? ==> |r.rest| < |s|
    decreases |s|, 0
  {
    if |s| == 0 then Bad
    else if s[0] == 'n' then ParseWord(s, "null", JNull)
    else if s[0] == 't' then ParseWord(s, "true", JBool(true))
    else if s[0] == 'f' then ParseWord(s, "false", JBool(false))
    else if s[0] == '\"' then (match ParseChars(s[1..]) case Bad => Bad case Good(t, rest) => Good(JStr(t), rest))
    else if s[0] == '[' then ParseArray(s[1..])
    else if s[0] == '{' then ParseObject(s[1..])
    else ParseInt(s)
  }

  /** After the opening bracket. */
  function ParseArray(s: string): (r: Parsed<Json>)
    ensures r.Good? ==> |r.rest| < |s|
    decreases |s|, 3
  {
    if |s| > 0 && s[0] == ']' then Good(JArr([]), s[1..])
    else match ParseItems(s) case Bad => Bad case Good(items, rest) => Good(JArr(items), rest)
  }

  /** After the opening brace. */
  function ParseObject(s: string): (r: Parsed<Json>)
    ensures r.Good? ==> |r.rest| < |s|
    decreases |s|, 3
  {
    if |s| > 0 && s[0] == '}' then Good(JObj(map[]), s[1..])
    else match ParseFields(s) case Bad => Bad case Good(fields, rest) => Good(JObj(fields), rest)
  }

  function ParseItems(s: string): (r: Parsed<seq<Json>>)
    ensures r.Good? ==> |r.rest| < |s|
    decreases |s|, 1
  {
    match ParseValue(s)
    case Bad => Bad
    case Good(v, rest) =>
      if |rest| > 0 && rest[0] == ']' then Good([v], rest[1..])
      else if |rest| > 0 && rest[0] == ',' then
        (match ParseItems(rest[1..]) case Bad => Bad case Good(tail, after) => Good([v] + tail, after))
      else Bad
  }

  function ParseField(s: string): (r: Parsed<(string, Json)>)
    ensures r.Good? ==> |r.rest| < |s|
    decreases |s|, 1
  {
    if |s| == 0 || s[0] != '\"' then Bad
    else match ParseChars(s[1..])
      case Bad => Bad
      case Good(k, colon) =>
        if |colon| == 0 || colon[0] != ':' then Bad
        else match ParseValue(colon[1..]) case Bad => Bad case Good(v, rest) => Good((k, v), rest)
  }

  function ParseFields(s: string): (r: Parsed<map<string, Json>>)
    ensures r.Good? ==> |r.rest| < |s|
    decreases |s|, 2
  {
    match ParseField(s)
    case Bad => Bad
    case Good(kv, rest) =>
      if |rest| > 0 && rest[0] == '}' then Good(map[kv.0 := kv.1], rest[1..])
      else if |rest| > 0 && rest[0] == ',' then
        (match ParseFields(rest[1..]) case Bad => Bad case Good(tail, after) => Good(tail[kv.0 := kv.1], after))
      else Bad
  }

  // ------------------------------------------------------------------ round trips

  lemma HexDigitRoundTrip(d: nat)
    requires d < 16
    ensures HexValue(HexDigit(d)) == d
  {
  }

  lemma FourDigits(n: nat)
    requires n < 0x10000
    ensures n == 4096 * (n / 4096) + 256 * (n / 256 % 16) + 16 * (n / 16 % 16) + n % 16 && n / 4096 < 16
  {
    assert n / 256 == 16 * (n / 4096) + n / 256 % 16;
    assert n / 16 == 16 * (n / 256) + n / 16 % 16;
  }

  lemma HexRoundTrip(n: nat, rest: string)
    requires n < 0x10000
    ensures IsHex4(Hex4(n) + rest) && Hex4Value(Hex4(n) + rest) == n
  {
    FourDigits(n);
    HexDigitRoundTrip(n / 4096);
    HexDigitRoundTrip(n / 256 % 16);
    HexDigitRoundTrip(n / 16 % 16);
    HexDigitRoundTrip(n % 16);
  }

  lemma PairRoundTrip(hi: nat, lo: nat, rest: string)
    requires 0xd800 <= hi < 0xdc00 <= lo < 0xe000
    ensures ParseCode(Pair(hi, lo) + rest) == Good((0x10000 + (hi - 0xd800) * 1024 + (lo - 0xdc00)) as char, rest)
  {
    var s := Pair(hi, lo) + rest;
    assert s == Hex4(hi) + ("\\u" + Hex4(lo) + rest);
    HexRoundTrip(hi, "\\u" + Hex4(lo) + rest);
    assert s[4] == '\\' && s[5] == 'u' && s[6..] == Hex4(lo) + rest && s[10..] == rest;
    HexRoundTrip(lo, rest);
  }

  lemma LowCodeRoundTrip(n: nat, rest: string)
    requires n < 0x10000 && ScalarValue(n)
    ensures ParseCode(Hex4(n) + rest) == Good(n as char, rest)
  {
    HexRoundTrip(n, rest);
    assert (Hex4(n) + rest)[4..] == rest;
  }

  lemma SurrogateSplit(n: nat)
    requires 0x10000 <= n <= 0x10ffff
    ensures var hi, lo := 0xd800 + (n - 0x10000) / 1024, 0xdc00 + (n - 0x10000) % 1024;
            0xd800 <= hi < 0xdc00 <= lo < 0xe000 && 0x10000 + (hi - 0xd800) * 1024 + (lo - 0xdc00) == n
  {
  }

  lemma CodeRoundTrip(n: nat, rest: string)
    requires ScalarValue(n)
    ensures ParseCode(EscapeCode(n) + rest) == Good(n as char, rest)
  {
    if n < 0x10000 {
      LowCodeRoundTrip(n, rest);
    } else {
      SurrogateSplit(n);
      PairRoundTrip(0xd800 + (n - 0x10000) / 1024, 0xdc00 + (n - 0x10000) % 1024, rest);
    }
  }

  lemma LetterRoundTrip(c: char)
    requires Letter(c).Some?
    ensures Letter(c).value != 'u' && Unletter(Letter(c).value) == Some(c)
  {
  }

  lemma PlainParse(c: char, rest: string)
    requires c != '\\'
    ensures ParseChar([c] + rest) == Good(c, rest)
  {
  }

  lemma LetterParse(letter: char, rest: string)
    requires letter != 'u' && Unletter(letter).Some?
    ensures ParseChar(['\\', letter] + rest) == Good(Unletter(letter).value, rest)
  {
    assert (['\\', letter] + rest)[2..] == rest;
  }

  lemma CodeParse(code: string, rest: string)
    ensures ParseChar("\\u" + code + rest) == ParseCode(code + rest)
  {
    assert ("\\u" + code + rest)[2..] == code + rest;
  }

  lemma CharRoundTrip(c: char, rest: string)
    ensures Escape(c) != [] && Escape(c)[0] != '\"'
    ensures ParseChar(Escape(c) + rest) == Good(c, rest)
  {
    if Letter(c).Some? {
      LetterRoundTrip(c);
      LetterParse(Letter(c).value, rest);
    } else if ' ' <= c <= '~' {
      PlainParse(c, rest);
    } else {
      CodeRoundTrip(c as int, rest);
      CodeParse(EscapeCode(c as int), rest);
    }
  }

  lemma {:induction false} CharsRoundTrip(t: string, rest: string)
    ensures ParseChars(PrintChars(t) + "\"" + rest) == Good(t, rest)
  {
    var s := PrintChars(t) + "\"" + rest;
    if |t| == 0 {
      assert s[1..] == rest;
    } else {
      var more := PrintChars(t[1..]) + "\"" + rest;
      assert s == Escape(t[0]) + more;
      CharRoundTrip(t[0], more);
      CharsRoundTrip(t[1..], rest);
      assert [t[0]] + t[1..] == t;
    }
  }

  predicate StopsDigits(rest: string) {
    |rest| == 0 || !IsDigit(rest[0])
  }

  lemma {:induction false} DigitsStop(d: string, rest: string)
    requires (forall i :: 0 <= i < |d| ==> IsDigit(d[i])) && StopsDigits(rest)
    ensures Digits(d + rest) == |d|
  {
    if |d| == 0 {
      assert d + rest == rest;
    } else {
      assert (d + rest)[1..] == d[1..] + rest;
      DigitsStop(d[1..], rest);
    }
  }

  lemma {:induction false} PrintNatIsDecimal(n: nat)
    ensures |PrintNat(n)| > 0 && (forall i :: 0 <= i < |PrintNat(n)| ==> IsDigit(PrintNat(n)[i]))
    ensures DigitsValue(PrintNat(n)) == n
  {
    if n >= 10 {
      PrintNatIsDecimal(n / 10);
      var front := PrintNat(n / 10);
      assert PrintNat(n)[..|PrintNat(n)| - 1] == front;
    }
  }

  lemma NatRoundTrip(n: nat, rest: string)
    requires StopsDigits(rest)
    ensures ParseNat(PrintNat(n) + rest) == Good(n, rest)
    ensures IsDigit((PrintNat(n) + rest)[0])
  {
    PrintNatIsDecimal(n);
    DigitsStop(PrintNat(n), rest);
    var s := PrintNat(n) + rest;
    assert s[..|PrintNat(n)|] == PrintNat(n) && s[|PrintNat(n)|..] == rest;
  }

  lemma SignedParse(t: string, n: int, rest: string)
    requires ParseNat(t) == Good(n, rest)
    ensures ParseInt("-" + t) == Good(JNum(-n), rest)
    ensures |t| > 0 && IsDigit(t[0]) ==> ParseInt(t) == Good(JNum(n), rest)
  {
    assert ("-" + t)[1..] == t;
  }

  lemma IntRoundTrip(n: int, rest: string)
    requires StopsDigits(rest)
    ensures ParseInt(PrintInt(n) + rest) == Good(JNum(n), rest)
    ensures (PrintInt(n) + rest)[0] == '-' || IsDigit((PrintInt(n) + rest)[0])
  {
    var abs := if n < 0 then -n else n;
    NatRoundTrip(abs, rest);
    SignedParse(PrintNat(abs) + rest, abs, rest);
    assert "-" + PrintNat(abs) + rest == "-" + (PrintNat(abs) + rest);
  }

  lemma StringRoundTrip(t: string, rest: string)
    ensures (PrintString(t) + rest)[0] == '\"' && ParseChars((PrintString(t) + rest)[1..]) == Good(t, rest)
  {
    assert (PrintString(t) + rest)[1..] == PrintChars(t) + "\"" + rest;
    CharsRoundTrip(t, rest);
  }

  /** What a printed value can start with: never a closing bracket. */
  lemma PrintStarts(v: Json)
    ensures Print(v) != "" && Print(v)[0] != ']' && Print(v)[0] != '}'
  {
    if v.JNum? { PrintNatIsDecimal(if v.n < 0 then -v.n else v.n); }
  }

  lemma {:induction false} ItemsRoundTrip(v: Json, from: nat, rest: string)
    requires v.JArr? && from < |v.items|
    ensures ParseItems(PrintItems(v, from) + "]" + rest) == Good(v.items[from..], rest)
    ensures PrintItems(v, from) != "" && PrintItems(v, from)[0] != ']'
    decreases v, |v.items| - from
  {
    PrintStarts(v.items[from]);
    var s := PrintItems(v, from) + "]" + rest;
    if from + 1 == |v.items| {
      assert s == Print(v.items[from]) + ("]" + rest);
      ValueRoundTrip(v.items[from], "]" + rest);
      assert ("]" + rest)[1..] == rest && v.items[from..] == [v.items[from]];
    } else {
      var more := PrintItems(v, from + 1) + "]" + rest;
      assert s == Print(v.items[from]) + ("," + more);
      ValueRoundTrip(v.items[from], "," + more);
      ItemsRoundTrip(v, from + 1, rest);
      assert ("," + more)[1..] == more && v.items[from..] == [v.items[from]] + v.items[from + 1..];
    }
  }

  lemma {:induction false} FieldRoundTrip(v: Json, k: string, rest: string)
    requires v.JObj? && k in v.fields && StopsDigits(rest)
    ensures ParseField(PrintString(k) + ":" + Print(v.fields[k]) + rest) == Good((k, v.fields[k]), rest)
    decreases v, 0
  {
    Regroup(PrintString(k), ":", Print(v.fields[k]), rest, "");
    ValueRoundTrip(v.fields[k], rest);
    StringRoundTrip(k, ":" + (Print(v.fields[k]) + rest));
    assert (":" + (Print(v.fields[k]) + rest))[1..] == Print(v.fields[k]) + rest;
  }

  lemma Regroup(a: string, b: string, c: string, d: string, e: string)
    ensures a + b + c + d + e == a + (b + (c + d + e))
    ensures a + b + c + d == a + (b + (c + d))
  {
  }

  lemma {:induction false} FieldsRoundTrip(v: Json, keys: seq<string>, rest: string)
    requires v.JObj? && keys != [] && forall k :: k in keys ==> k in v.fields
    ensures ParseFields(PrintFields(v, keys) + "}" + rest) == Good(Only(v.fields, keys), rest)
    decreases v, |keys|
  {
    var k := keys[0];
    var one := PrintString(k) + ":" + Print(v.fields[k]);
    if |keys| == 1 {
      FieldRoundTrip(v, k, "}" + rest);
      FieldsEnd(one, k, v.fields[k], rest);
      OnlyOne(v.fields, keys);
    } else {
      var more := PrintFields(v, keys[1..]) + "}" + rest;
      FieldRoundTrip(v, k, "," + more);
      FieldsRoundTrip(v, keys[1..], rest);
      FieldsStep(one, more, k, v.fields[k], Only(v.fields, keys[1..]), rest);
      Regroup(one, ",", PrintFields(v, keys[1..]), "}" , rest);
      OnlyMore(v.fields, keys);
    }
  }

  lemma FieldsEnd(one: string, k: string, v: Json, rest: string)
    requires ParseField(one + ("}" + rest)) == Good((k, v), "}" + rest)
    ensures ParseFields(one + "}" + rest) == Good(map[k := v], rest)
  {
    assert ("}" + rest)[1..] == rest && one + "}" + rest == one + ("}" + rest);
  }

  lemma FieldsStep(one: string, more: string, k: string, v: Json, tail: map<string, Json>, rest: string)
    requires ParseField(one + ("," + more)) == Good((k, v), "," + more)
    requires ParseFields(more) == Good(tail, rest)
    ensures ParseFields(one + ("," + more)) == Good(tail[k := v], rest)
  {
    assert ("," + more)[1..] == more;
  }

  function Only(m: map<string, Json>, keys: seq<string>): map<string, Json>
    requires forall k :: k in keys ==> k in m
  {
    map k | k in keys :: m[k]
  }

  lemma OnlyOne(m: map<string, Json>, keys: seq<string>)
    requires |keys| == 1 && keys[0] in m
    ensures Only(m, keys) == map[keys[0] := m[keys[0]]]
  {
  }

  lemma OnlyMore(m: map<string, Json>, keys: seq<string>)
    requires keys != [] && forall k :: k in keys ==> k in m
    ensures Only(m, keys) == Only(m, keys[1..])[keys[0] := m[keys[0]]]
  {
    assert keys == [keys[0]] + keys[1..];
  }

  lemma WordRoundTrip(word: string, v: Json, rest: string)
    requires word != ""
    ensures ParseWord(word + rest, word, v) == Good(v, rest)
  {
    assert (word + rest)[|word|..] == rest;
  }

  /** The parser undoes the printer, whatever text follows that is not a digit. */
  lemma {:induction false} ValueRoundTrip(v: Json, rest: string)
    requires StopsDigits(rest)
    ensures ParseValue(Print(v) + rest) == Good(v, rest)
    decreases v
  {
    var s := Print(v) + rest;
    match v {
      case JNull => WordRoundTrip("null", v, rest);
      case JBool(b) => WordRoundTrip(if b then "true" else "false", v, rest);
      case JNum(n) =>
        IntRoundTrip(n, rest);
        assert ParseValue(s) == ParseInt(s);
      case JStr(t) => StringRoundTrip(t, rest);
      case JArr(items) => ArrayRoundTrip(v, rest);
      case JObj(fields) => ObjectRoundTrip(v, rest);
    }
  }

  lemma {:induction false} ArrayRoundTrip(v: Json, rest: string)
    requires v.JArr?
    ensures ParseValue(Print(v) + rest) == Good(v, rest)
    decreases v, |v.items| + 1
  {
    var s := Print(v) + rest;
    if v.items == [] {
      assert s[1..] == "]" + rest && s[1..][1..] == rest;
    } else {
      ItemsRoundTrip(v, 0, rest);
      assert s[1..] == PrintItems(v, 0) + "]" + rest;
      assert v.items[0..] == v.items;
    }
  }

  lemma {:induction false} ObjectRoundTrip(v: Json, rest: string)
    requires v.JObj?
    ensures ParseValue(Print(v) + rest) == Good(v, rest)
    decreases v, |SortedKeys(v.fields.Keys)| + 1
  {
    if v.fields == map[] {
      assert ("{}" + rest)[1..] == "}" + rest && ("}" + rest)[1..] == rest;
    } else {
      var keys := SortedKeys(v.fields.Keys);
      AllKeys(v.fields);
      FieldsRoundTrip(v, keys, rest);
      var inner := PrintFields(v, keys);
      assert inner[0] == '\"';
      Braced(inner, rest, v.fields);
    }
  }

  lemma AllKeys(m: map<string, Json>)
    requires m != map[]
    ensures SortedKeys(m.Keys) != [] && Only(m, SortedKeys(m.Keys)) == m
  {
  }

  lemma Braced(inner: string, rest: string, m: map<string, Json>)
    requires inner != "" && inner[0] == '\"' && ParseFields(inner + "}" + rest) == Good(m, rest)
    ensures ParseValue("{" + inner + "}" + rest) == Good(JObj(m), rest)
  {
    assert ("{" + inner + "}" + rest)[1..] == inner + "}" + rest;
  }

  /** Equal canonical texts come from equal values. */
  lemma CanonicalTextInjective(v: Json, w: Json)
    ensures Print(v) == Print(w) <==> v == w
  {
    ValueRoundTrip(v, "");
    ValueRoundTrip(w, "");
    assert Print(v) + "" == Print(v) && Print(w) + "" == Print(w);
  }
}
