/**
 * The part of `JSON.stringify` the fault boundary relies on: string quoting
 * and integer rendering. Objects are assembled by their users.
 */
module Json {
  import opened Text

  /** Lower-case hexadecimal digit, as in `\u001f`. */
  function HexDigit(d: nat): (c: char)
    requires d < 16
  {
    if d < 10 then Digit(d) else ('a' as int + d - 10) as char
  }

  /** A character `JSON.stringify` writes as itself inside a string. */
  predicate Plain(c: char) {
    c != '"' && c != '\\' && c as int >= 0x20
  }

  /** A string made only of plain characters. */
  predicate PlainText(s: string) {
    forall i :: 0 <= i < |s| ==> Plain(s[i])
  }

  /** Joining two plain texts gives a plain text. */
  lemma PlainAppend(a: string, b: string)
    requires PlainText(a) && PlainText(b)
    ensures PlainText(a + b)
  {
    forall i | 0 <= i < |a + b|
      ensures Plain((a + b)[i])
    {
      if i < |a| {
        assert (a + b)[i] == a[i];
      } else {
        assert (a + b)[i] == b[i - |a|];
      }
    }
  }

  /** The escape `JSON.stringify` writes for one character of a string. */
  function EscapeChar(c: char): (r: string)
    ensures Plain(c) ==> r == [c]
    ensures !Plain(c) ==> |r| >= 2 && r[0] == '\\'
  {
    if c == '"' then "\\\""
    else if c == '\\' then "\\\\"
    else if c as int == 0x08 then "\\b"
    else if c == '\t' then "\\t"
    else if c == '\n' then "\\n"
    else if c as int == 0x0c then "\\f"
    else if c == '\r' then "\\r"
    else if c as int < 0x20 then "\\u00" + [HexDigit(c as int / 16), HexDigit(c as int % 16)]
    else [c]
  }

  /** The escaped body of a JSON string. */
  function Escape(s: string): (r: string)
    ensures PlainText(s) ==> r == s
  {
    if s == [] then [] else EscapeChar(s[0]) + Escape(s[1..])
  }

  /** Plain text is quoted as it stands. */
  lemma QuotePlain(s: string)
    requires PlainText(s)
    ensures Quote(s) == "\"" + s + "\""
  {
  }

  /** `JSON.stringify` of a string: quotes around the escaped text. */
  function Quote(s: string): (r: string)
    ensures |r| >= 2 && r[0] == '"' && r[|r| - 1] == '"'
  {
    "\"" + Escape(s) + "\""
  }

  /** `JSON.stringify` of an integer-valued number. */
  function Number(i: int): (r: string)
    ensures |r| >= 1 && (r[0] == '-' || IsDigit(r[0]))
  {
    IntToString(i)
  }

  /** The status code of the boundary's replies renders as three digits. */
  lemma Number500()
    ensures Number(500) == "500"
  {
    assert NatToString(5) == "5";
    assert NatToString(50) == "5" + "0";
  }
}
