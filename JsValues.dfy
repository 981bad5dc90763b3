/**
 * The JavaScript values that the server's formatters receive, and the parts of
 * the language's own conversions that the formatters rely on: `String(v)`,
 * the decimal form of an integral number, and the way `JSON.stringify`
 * quotes a string.
 */
module JsValues {
  import opened Wrappers

  /** The integral numbers of magnitude at most 2^53, which a JavaScript
      number holds exactly and `String(n)` and `JSON.stringify` print as their
      exact decimal. Above 2^53 they print the shortest digits that read back
      as the same double (`2**64` prints "18446744073709552000"), and from
      1e21 on they switch to exponent form. */
  type JsInteger = n: int | -9007199254740992 <= n <= 9007199254740992

  /** A JavaScript value. `ErrorObj` is any object for which `instanceof Error`
      holds; numbers are the integral ones of magnitude at most 2^53. */
  datatype JsValue =
    | Undefined
    | Null
    | Bool(b: bool)
    | Number(n: JsInteger)
    | Str(s: string)
    | Arr(items: seq<JsValue>)
    | Obj(fields: seq<(string, JsValue)>)
    | ErrorObj(name: string, message: string)

  // ---------------------------------------------------------------------------
  // Decimal form of an integer (Number.prototype.toString for integral values)
  // ---------------------------------------------------------------------------

  function DigitChar(d: nat): char
    requires d < 10
  {
    "0123456789"[d]
  }

  predicate IsDigit(c: char) {
    '0' <= c <= '9'
  }

  predicate AllDigits(s: string) {
    forall i :: 0 <= i < |s| ==> IsDigit(s[i])
  }

  function NatToDecimal(n: nat): string
    decreases n
  {
    if n < 10 then [DigitChar(n)] else NatToDecimal(n / 10) + [DigitChar(n % 10)]
  }

  function IntToDecimal(n: int): string {
    if n < 0 then "-" + NatToDecimal(-n) else NatToDecimal(n)
  }

  /** The value of a string of decimal digits, read most significant first. */
  function DigitsValue(s: string): nat
    requires AllDigits(s)
  {
    if s == [] then 0 else DigitsValue(s[..|s| - 1]) * 10 + (s[|s| - 1] as int - '0' as int)
  }

  /** The integer a decimal numeral denotes: an optional minus sign followed by
      digits without a redundant leading zero. */
  function DecimalValue(s: string): Option<int> {
    if |s| > 0 && s[0] == '-' then
      var d := s[1..];
      if |d| > 0 && AllDigits(d) && d[0] != '0' then Some(-(DigitsValue(d) as int)) else None
    else if |s| > 0 && AllDigits(s) && (s[0] != '0' || |s| == 1) then Some(DigitsValue(s))
    else None
  }

  lemma {:induction false} NatToDecimalDigits(n: nat)
    ensures |NatToDecimal(n)| > 0 && AllDigits(NatToDecimal(n))
    ensures DigitsValue(NatToDecimal(n)) == n
    ensures NatToDecimal(n)[0] == '0' ==> n == 0
    decreases n
  {
    if n >= 10 {
      NatToDecimalDigits(n / 10);
      var s := NatToDecimal(n);
      assert s[..|s| - 1] == NatToDecimal(n / 10);
    }
  }

  lemma SignedNumeralValue(d: string)
    requires |d| > 0 && AllDigits(d) && d[0] != '0'
    ensures DecimalValue("-" + d) == Some(-(DigitsValue(d) as int))
  {
  }

  lemma UnsignedNumeralValue(d: string)
    requires |d| > 0 && AllDigits(d) && (d[0] != '0' || |d| == 1)
    ensures DecimalValue(d) == Some(DigitsValue(d) as int)
  {
  }

  /** The decimal form of an integer reads back as that integer: no two
      integers print alike. */
  lemma IntToDecimalRoundTrip(n: int)
    ensures DecimalValue(IntToDecimal(n)) == Some(n)
  {
    if n < 0 {
      var m: nat := -n;
      var d := NatToDecimal(m);
      NatToDecimalDigits(m);
      SignedNumeralValue(d);
      assert IntToDecimal(n) == "-" + d;
    } else {
      var d := NatToDecimal(n);
      NatToDecimalDigits(n);
      UnsignedNumeralValue(d);
      assert IntToDecimal(n) == d;
    }
  }

  // ---------------------------------------------------------------------------
  // String(v)
  // ---------------------------------------------------------------------------

  /** Error.prototype.toString: the name and the message joined by ": ",
      either part dropped when empty. */
  function ErrorToString(name: string, message: string): string {
    if name == "" then message else if message == "" then name else name + ": " + message
  }

  /** Array.prototype.join with the default separator ",". */
  function JoinWithComma(parts: seq<string>): string {
    if |parts| == 0 then "" else if |parts| == 1 then parts[0] else parts[0] + "," + JoinWithComma(parts[1..])
  }

  /** `String(v)`. Inside an array, `undefined` and `null` print as the empty
      string; a plain object prints as "[object Object]". */
  function ToJsString(v: JsValue): string
    decreases v
  {
    match v
    case Undefined => "undefined"
    case Null => "null"
    case Bool(b) => if b then "true" else "false"
    case Number(n) => IntToDecimal(n)
    case Str(s) => s
    case Arr(items) =>
      JoinWithComma(seq(|items|, i requires 0 <= i < |items| =>
        if items[i].Undefined? || items[i].Null? then "" else ToJsString(items[i])))
    case Obj(_) => "[object Object]"
    case ErrorObj(name, message) => ErrorToString(name, message)
  }

  // ---------------------------------------------------------------------------
  // JSON string literals, as JSON.stringify writes them
  // ---------------------------------------------------------------------------

  function HexDigit(d: nat): char
    requires d < 16
  {
    "0123456789abcdef"[d]
  }

  /** The JSON form of one character: the two-character escapes, `\u00XX` for
      the other control characters, the character itself otherwise. */
  function EscapeChar(c: char): string {
    if c == '"' then ['\\', '"']
    else if c == '\\' then ['\\', '\\']
    else if c as int == 8 then ['\\', 'b']
    else if c as int == 12 then ['\\', 'f']
    else if c == '\n' then ['\\', 'n']
    else if c == '\r' then ['\\', 'r']
    else if c == '\t' then ['\\', 't']
    else if c as int < 32 then ['\\', 'u', '0', '0', HexDigit(c as int / 16), HexDigit(c as int % 16)]
    else [c]
  }

  function Escape(s: string): string {
    if s == [] then [] else EscapeChar(s[0]) + Escape(s[1..])
  }

  /** The JSON string literal for `s`. */
  function Quote(s: string): string {
    "\"" + Escape(s) + "\""
  }

  lemma {:induction false} EscapeNeverShortens(s: string)
    ensures |Escape(s)| >= |s|
  {
    if s != [] {
      EscapeNeverShortens(s[1..]);
    }
  }

  /** A string and its JSON literal always differ: serialising a string is
      never the identity. */
  lemma QuoteChangesEveryString(s: string)
    ensures |Quote(s)| >= |s| + 2
    ensures Quote(s) != s
  {
    EscapeNeverShortens(s);
  }

  /** What is known of `JSON.stringify(v, null, 2)` without modelling its
      internals: `undefined` has no JSON text, and a string prints as its JSON
      literal. */
  ghost predicate BehavesLikeJsonStringify(stringify: JsValue -> Option<string>) {
    && stringify(Undefined) == None
    && (forall s :: stringify(Str(s)) == Some(Quote(s)))
  }
}
