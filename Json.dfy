/**
 * `JSON.stringify` on the values of module Js, and a reader for the quoted
 * strings it writes. The reader exists to state that the quoting loses
 * nothing: `ReadQuoted(Quote(s) + rest) == Some((s, rest))`.
 */
module Json {
  import opened Optional
  import opened Js
  import Text

  function HexDigit(d: nat): char
    requires d < 16
  {
    "0123456789abcdef"[d]
  }

  /** The value of a hexadecimal digit of either case. */
  function HexValue(c: char): (r: Option<nat>)
    ensures r.Some? ==> r.value < 16
  {
    if '0' <= c <= '9' then Some(c as int - '0' as int)
    else if 'a' <= c <= 'f' then Some(c as int - 'a' as int + 10)
    else if 'A' <= c <= 'F' then Some(c as int - 'A' as int + 10)
    else None
  }

  lemma HexRoundTrip(d: nat)
    requires d < 16
    ensures HexValue(HexDigit(d)) == Some(d)
  {
  }

  /** How `JSON.stringify` writes one character inside a string literal. */
  function EscapeChar(c: char): string
  {
    if c == '"' then "\\\""
    else if c == '\\' then "\\\\"
    else if c == '\U{8}' then "\\b"
    else if c == '\U{C}' then "\\f"
    else if c == '\n' then "\\n"
    else if c == '\r' then "\\r"
    else if c == '\t' then "\\t"
    else if c as int < 0x20 then "\\u00" + [HexDigit(c as int / 16), HexDigit(c as int % 16)]
    else [c]
  }

  function Escape(s: string): string
  {
    if s == "" then "" else EscapeChar(s[0]) + Escape(s[1..])
  }

  /** A JSON string literal for `s`. */
  function Quote(s: string): string
  {
    "\"" + Escape(s) + "\""
  }

  /** Characters that `JSON.stringify` copies into a string literal unchanged. */
  predicate Plain(c: char) {
    c != '"' && c != '\\' && c as int >= 0x20
  }

  lemma {:induction false} EscapePlain(s: string)
    requires forall i :: 0 <= i < |s| ==> Plain(s[i])
    ensures Escape(s) == s
  {
    if s != "" {
      EscapePlain(s[1..]);
    }
  }

  /**
   * `JSON.stringify(v)`: `None` when the result is `undefined`. Array items
   * that are `undefined` are written as `null`; object entries whose value is
   * `undefined` are left out.
   */
  function Stringify(v: JsValue): (r: Option<string>)
    ensures r.None? <==> v.Undefined?
    decreases v, 1
  {
    match v
    case Undefined => None
    case Null => Some("null")
    case Bool(b) => Some(if b then "true" else "false")
    case Num(n) => Some(IntToDecimal(n))
    case Str(s) => Some(Quote(s))
    case Arr(items) => Some("[" + Text.Join(ItemsFrom(v, 0), ",") + "]")
    case Obj(entries) => Some("{" + Text.Join(MembersFrom(v, 0), ",") + "}")
  }

  /** The texts of an array's items from position `k` on. */
  function ItemsFrom(v: JsValue, k: nat): seq<string>
    requires v.Arr?
    decreases v, 0, |v.items| - k
  {
    if k >= |v.items| then []
    else [Stringify(v.items[k]).GetOr("null")] + ItemsFrom(v, k + 1)
  }

  /** The `"key":value` texts of an object's entries from position `k` on, skipping undefined values. */
  function MembersFrom(v: JsValue, k: nat): seq<string>
    requires v.Obj?
    decreases v, 0, |v.entries| - k
  {
    if k >= |v.entries| then []
    else match Stringify(v.entries[k].1)
      case None => MembersFrom(v, k + 1)
      case Some(t) => [Quote(v.entries[k].0) + ":" + t] + MembersFrom(v, k + 1)
  }

  /** Decodes the escape sequence after a backslash: the character and how many characters it used. */
  function ReadEscape(t: string): (r: Option<(char, nat)>)
    ensures r.Some? ==> 1 <= r.value.1 <= |t|
  {
    if t == "" then None
    else if t[0] == '"' || t[0] == '\\' || t[0] == '/' then Some((t[0], 1))
    else if t[0] == 'b' then Some(('\U{8}', 1))
    else if t[0] == 'f' then Some(('\U{C}', 1))
    else if t[0] == 'n' then Some(('\n', 1))
    else if t[0] == 'r' then Some(('\r', 1))
    else if t[0] == 't' then Some(('\t', 1))
    else if t[0] == 'u' && |t| >= 5 then
      match (HexValue(t[1]), HexValue(t[2]), HexValue(t[3]), HexValue(t[4]))
      case (Some(a), Some(b), Some(c), Some(d)) =>
        var code := ((a * 16 + b) * 16 + c) * 16 + d;
        if 0xD800 <= code < 0xE000 then None else Some((code as char, 5))
      case _ => None
    else None
  }

  /** Reads the body of a string literal up to its closing quote: the text and what follows. */
  function ReadString(t: string): Option<(string, string)>
    decreases |t|
  {
    if t == "" then None
    else if t[0] == '"' then Some(("", t[1..]))
    else if t[0] == '\\' then
      match ReadEscape(t[1..])
      case None => None
      case Some((c, k)) =>
        match ReadString(t[1 + k..])
        case None => None
        case Some((s, rest)) => Some(([c] + s, rest))
    else
      match ReadString(t[1..])
      case None => None
      case Some((s, rest)) => Some(([t[0]] + s, rest))
  }

  /** Reads a string literal at the start of `t`. */
  function ReadQuoted(t: string): Option<(string, string)>
  {
    if t != "" && t[0] == '"' then ReadString(t[1..]) else None
  }

  /** Reading an escaped character gives back the character, whatever follows. */
  lemma ReadEscapeChar(c: char, t: string)
    ensures ReadString(EscapeChar(c) + t) ==
      match ReadString(t)
      case None => None
      case Some((s, rest)) => Some(([c] + s, rest))
  {
    var e := EscapeChar(c);
    if c == '"' || c == '\\' {
      assert (e + t)[1..][1..] == t;
    } else if c == '\U{8}' || c == '\U{C}' || c == '\n' || c == '\r' || c == '\t' {
      assert (e + t)[1..][1..] == t;
    } else if c as int < 0x20 {
      var u := c as int;
      HexRoundTrip(u / 16);
      HexRoundTrip(u % 16);
      HexRoundTrip(0);
      var w := (e + t)[1..];
      assert w[..5] == "u00" + [HexDigit(u / 16), HexDigit(u % 16)];
      assert ReadEscape(w) == Some((c, 5));
      assert (e + t)[1 + 5..] == t;
    } else {
      assert e == [c];
      assert (e + t)[1..] == t;
    }
  }

  /** The escaped text followed by a quote reads back as the original string. */
  lemma {:induction false} ReadEscaped(s: string, rest: string)
    ensures ReadString(Escape(s) + "\"" + rest) == Some((s, rest))
  {
    if s == "" {
      assert Escape(s) + "\"" + rest == "\"" + rest;
    } else {
      ReadEscaped(s[1..], rest);
      ReadEscapeChar(s[0], Escape(s[1..]) + "\"" + rest);
      assert Escape(s) + "\"" + rest == EscapeChar(s[0]) + (Escape(s[1..]) + "\"" + rest);
      assert [s[0]] + s[1..] == s;
    }
  }

  /** Quoting is undone by reading: no string is lost or confused with another. */
  lemma QuoteRoundTrip(s: string, rest: string)
    ensures ReadQuoted(Quote(s) + rest) == Some((s, rest))
  {
    var t := Quote(s) + rest;
    assert t == "\"" + (Escape(s) + "\"" + rest);
    assert t[0] == '"' && t[1..] == Escape(s) + "\"" + rest;
    ReadEscaped(s, rest);
  }
}
