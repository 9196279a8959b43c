/**
 * `JSON.parse` and `JSON.stringify`, as far as the scanners and the test-QR generator use them.
 *
 * The parser is abstract: a scanner only reads the fields `tipo`, `dni` and `DNI` of whatever
 * `JSON.parse` returns, and reading a field of a non-object (a number, a string, `null`) either
 * yields `undefined` or throws into a catch that falls through. So a parse is modelled as a total
 * function to an optional record of those three fields: `None` stands for "not JSON" and for
 * "JSON but not an object". Two facts of RFC 8259 are stated about such a parser and used as
 * hypotheses by the lemmas that need them.
 */
module Json {
  import opened Text

  /** The fields of a parsed JSON object that the scanners read (`DNI` is `upperDni`). */
  datatype JsonObject = JsonObject(tipo: Option<string>, dni: Option<string>, upperDni: Option<string>)

  type JsonParser = string -> Option<JsonObject>

  /** The `ws` production of section 2 of RFC 8259. */
  predicate IsJsonSpace(c: char) { c == ' ' || c == '\t' || c == '\n' || c == '\r' }

  /**
   * Sections 2 and 4 of RFC 8259: the text of an object is optional `ws` then `{`, so a parser
   * yields an object only for a text whose first character is `{` or JSON whitespace.
   */
  ghost predicate ObjectsOnly(parse: JsonParser) {
    forall s :: parse(s).Some? ==> s != [] && (s[0] == '{' || IsJsonSpace(s[0]))
  }

  /** A text whose first character is neither JSON whitespace nor `{` is not an object. */
  lemma NotAnObject(parse: JsonParser, s: string)
    requires ObjectsOnly(parse)
    requires s != [] && s[0] != '{' && !IsJsonSpace(s[0])
    ensures parse(s) == None
  {
  }

  function HexDigit(d: nat): (c: char)
    requires d < 16
  {
    if d < 10 then DigitChar(d) else ('a' as int + d - 10) as char
  }

  /** The escape `JSON.stringify` writes for one character of a string (QuoteJSONString of ECMA-262). */
  function EscapeChar(c: char): string {
    if c == '\U{0008}' then "\\b"
    else if c == '\t' then "\\t"
    else if c == '\n' then "\\n"
    else if c == '\U{000C}' then "\\f"
    else if c == '\r' then "\\r"
    else if c == '"' then "\\\""
    else if c == '\\' then "\\\\"
    else if (c as int) < 0x20 then "\\u00" + [HexDigit(c as int / 16), HexDigit(c as int % 16)]
    else [c]
  }

  function EscapeChars(s: string): string {
    if s == [] then "" else EscapeChar(s[0]) + EscapeChars(s[1..])
  }

  /** A JSON string literal for `s`. */
  function Quote(s: string): string {
    "\"" + EscapeChars(s) + "\""
  }

  /** Digits need no escape, so a digit string is quoted as it stands. */
  lemma {:induction false} EscapeDigits(s: string)
    requires AllDigits(s)
    ensures EscapeChars(s) == s
  {
    if s != [] {
      assert EscapeChar(s[0]) == [s[0]];
      EscapeDigits(s[1..]);
      assert s == [s[0]] + s[1..];
    }
  }
}
