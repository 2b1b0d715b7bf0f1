// The payload fingerprint of chaos_service/store.py: compact JSON with sorted keys and
// unescaped non-ASCII text, and a reader that recovers the order from it.

module Fingerprint {
  import opened Options
  import opened Decimals

  const BACKSPACE := '\U{8}'
  const FORM_FEED := '\U{c}'
  const HEAD := "{\"item_id\":\""
  const MIDDLE := ",\"quantity\":"

  function HexDigit(d: nat): char
    requires d < 16
  {
    if d < 10 then '0' + d as char else 'a' + (d - 10) as char
  }

  function HexValue(c: char): Option<nat> {
    if '0' <= c <= '9' then Some(c as int - '0' as int)
    else if 'a' <= c <= 'f' then Some(c as int - 'a' as int + 10)
    else None
  }

  // json.dumps with ensure_ascii=False escapes the quote, the backslash and the control characters.
  function EscapeChar(c: char): string {
    if c == '"' then "\\\""
    else if c == '\\' then "\\\\"
    else if c == '\n' then "\\n"
    else if c == '\r' then "\\r"
    else if c == '\t' then "\\t"
    else if c == FORM_FEED then "\\f"
    else if c == BACKSPACE then "\\b"
    else if c < ' ' then "\\u00" + [HexDigit(c as int / 16), HexDigit(c as int % 16)]
    else [c]
  }

  function Escape(s: string): string {
    if s == "" then "" else EscapeChar(s[0]) + Escape(s[1..])
  }

  function PayloadText(itemId: string, quantity: int): string {
    HEAD + Escape(itemId) + "\"" + MIDDLE + IntText(quantity) + "}"
  }

  // Reading back: one escape after the backslash, section 7 of RFC 8259.
  function ReadEscape(s: string): Option<(char, string)> {
    if s == "" then None
    else if s[0] == '"' || s[0] == '\\' then Some((s[0], s[1..]))
    else if s[0] == 'n' then Some(('\n', s[1..]))
    else if s[0] == 'r' then Some(('\r', s[1..]))
    else if s[0] == 't' then Some(('\t', s[1..]))
    else if s[0] == 'f' then Some((FORM_FEED, s[1..]))
    else if s[0] == 'b' then Some((BACKSPACE, s[1..]))
    else if |s| >= 5 && s[..3] == "u00" && HexValue(s[3]).Some? && HexValue(s[4]).Some? then
      Some(((16 * HexValue(s[3]).value + HexValue(s[4]).value) as char, s[5..]))
    else None
  }

  // The first character of an escaped text, read with the escape it stands for.
  function ReadChar(s: string): Option<(char, string)>
    requires s != ""
  {
    if s[0] == '\\' then ReadEscape(s[1..]) else Some((s[0], s[1..]))
  }

  // The text up to the closing quote, and what follows the quote.
  function ReadString(s: string): Option<(string, string)>
    decreases |s|
  {
    if s == "" then None
    else if s[0] == '"' then Some(("", s[1..]))
    else
      var head := ReadChar(s);
      if head.None? || |head.value.1| >= |s| then None else
      var tail := ReadString(head.value.1);
      if tail.None? then None else Some(([head.value.0] + tail.value.0, tail.value.1))
  }

  // The rest of the object after the item: the quantity and the closing brace.
  function ReadQuantity(s: string): Option<int> {
    if !(MIDDLE <= s) then None else
    var rest := s[|MIDDLE|..];
    if rest == "" || rest[|rest| - 1] != '}' then None else IntValue(rest[..|rest| - 1])
  }

  function ReadPayload(s: string): Option<(string, int)> {
    if !(HEAD <= s) then None else
    var item := ReadString(s[|HEAD|..]);
    if item.None? then None else
    var quantity := ReadQuantity(item.value.1);
    if quantity.None? then None else Some((item.value.0, quantity.value))
  }

  lemma HexReads(n: nat)
    requires n < 16
    ensures HexValue(HexDigit(n)) == Some(n)
  {
  }

  lemma ControlCharReads(h: nat, l: nat, rest: string)
    requires h < 16 && l < 16
    ensures ReadEscape("u00" + [HexDigit(h), HexDigit(l)] + rest) == Some(((16 * h + l) as char, rest))
  {
    var s := "u00" + [HexDigit(h), HexDigit(l)] + rest;
    HexReads(h);
    HexReads(l);
    assert s[..3] == "u00" && s[5..] == rest;
  }

  lemma EscapedCharReads(c: char, rest: string)
    ensures
      var s := EscapeChar(c) + rest;
      s[0] != '"' && ReadChar(s) == Some((c, rest))
  {
    var e := EscapeChar(c);
    var s := e + rest;
    assert s[1..] == e[1..] + rest;
    if |e| == 6 {
      ControlCharReads(c as int / 16, c as int % 16, rest);
      assert e[1..] == "u00" + [HexDigit(c as int / 16), HexDigit(c as int % 16)];
    } else if |e| == 2 {
      assert s[1..][1..] == rest;
    } else {
      assert s[1..] == rest;
    }
  }

  lemma ReadOneMore(s: string, c: char, rest: string)
    requires s != "" && s[0] != '"' && ReadChar(s) == Some((c, rest)) && |rest| < |s| && ReadString(rest).Some?
    ensures ReadString(s) == Some(([c] + ReadString(rest).value.0, ReadString(rest).value.1))
  {
  }

  lemma {:induction false} StringRoundTrip(s: string, rest: string)
    ensures ReadString(Escape(s) + "\"" + rest) == Some((s, rest))
  {
    if s == "" {
      assert (Escape(s) + "\"" + rest)[1..] == rest;
    } else {
      StringRoundTrip(s[1..], rest);
      var tail := Escape(s[1..]) + "\"" + rest;
      assert Escape(s) + "\"" + rest == EscapeChar(s[0]) + tail;
      EscapedCharReads(s[0], tail);
      ReadOneMore(EscapeChar(s[0]) + tail, s[0], tail);
      assert [s[0]] + s[1..] == s;
    }
  }

  lemma QuantityRoundTrip(quantity: int)
    ensures ReadQuantity(MIDDLE + IntText(quantity) + "}") == Some(quantity)
  {
    var s := MIDDLE + IntText(quantity) + "}";
    assert s[|MIDDLE|..] == IntText(quantity) + "}";
    assert (IntText(quantity) + "}")[..|IntText(quantity)|] == IntText(quantity);
    IntRoundTrip(quantity);
  }

  lemma Regroup(a: string, b: string, c: string, d: string, e: string, f: string)
    ensures a + b + c + d + e + f == a + (b + c + (d + e + f))
  {
  }

  lemma PayloadSplits(itemId: string, quantity: int)
    ensures PayloadText(itemId, quantity) == HEAD + (Escape(itemId) + "\"" + (MIDDLE + IntText(quantity) + "}"))
  {
    Regroup(HEAD, Escape(itemId), "\"", MIDDLE, IntText(quantity), "}");
  }

  lemma ReadsAfterHead(body: string, itemId: string, rest: string)
    requires ReadString(body) == Some((itemId, rest)) && ReadQuantity(rest).Some?
    ensures ReadPayload(HEAD + body) == Some((itemId, ReadQuantity(rest).value))
  {
    assert (HEAD + body)[|HEAD|..] == body;
  }

  lemma PayloadRoundTrip(itemId: string, quantity: int)
    ensures ReadPayload(PayloadText(itemId, quantity)) == Some((itemId, quantity))
  {
    var rest := MIDDLE + IntText(quantity) + "}";
    StringRoundTrip(itemId, rest);
    QuantityRoundTrip(quantity);
    ReadsAfterHead(Escape(itemId) + "\"" + rest, itemId, rest);
    PayloadSplits(itemId, quantity);
  }

  // Two orders share a fingerprint exactly when they are the same order.
  lemma Injective(item1: string, quantity1: int, item2: string, quantity2: int)
    ensures PayloadText(item1, quantity1) == PayloadText(item2, quantity2) <==> item1 == item2 && quantity1 == quantity2
  {
    PayloadRoundTrip(item1, quantity1);
    PayloadRoundTrip(item2, quantity2);
  }
}
