/** `JSON.stringify` of the values the task-list query carries (ECMA-262,
    section 25.5.2), with a reader of JSON string literals as the partner of
    the string quoting. */
module JsonText {
  import opened Wrappers
  import opened JsValue

  /** Lower-case hexadecimal digit, as `JSON.stringify` writes `\u` escapes. */
  function LowerHex(d: int): char
    requires 0 <= d < 16
  {
    "0123456789abcdef"[d]
  }

  /** How `JSON.stringify` writes one character inside a string literal
      (QuoteJSONString): the quote, the backslash and the control characters
      are escaped, everything else is written as it is. */
  function EscapeChar(c: char): (r: string)
    ensures |r| > 0
  {
    if c == '"' then "\\\""
    else if c == '\\' then "\\\\"
    else if c as int == 0x08 then "\\b"
    else if c as int == 0x0C then "\\f"
    else if c == '\n' then "\\n"
    else if c == '\r' then "\\r"
    else if c == '\t' then "\\t"
    else if (c as int) < 0x20 then ['\\', 'u', '0', '0', LowerHex(c as int / 16), LowerHex(c as int % 16)]
    else [c]
  }

  /** The body of a string literal. */
  function Escape(s: string): string {
    if |s| == 0 then "" else EscapeChar(s[0]) + Escape(s[1..])
  }

  /** A string literal. */
  function Quote(s: string): string {
    "\"" + Escape(s) + "\""
  }

  /** The character a `\uXXXX` escape with these four digits stands for, when
      it is a scalar value. */
  function UnicodeEscape(a: char, b: char, c: char, d: char): Option<char> {
    match (HexValue(a), HexValue(b), HexValue(c), HexValue(d))
    case (Some(w), Some(x), Some(y), Some(z)) =>
      var hi := w * 16 + x;
      assert 0 <= hi < 0x100;
      var mid := hi * 16 + y;
      assert 0 <= mid < 0x1000;
      var n := mid * 16 + z;
      assert 0 <= n < 0x10000;
      if n < 0xD800 || 0xE000 <= n then Some(n as char) else None
    case _ => None
  }

  /** The character a two-character escape `\c` stands for. */
  function ShortEscape(c: char): Option<char> {
    if c == '"' then Some('"')
    else if c == '\\' then Some('\\')
    else if c == '/' then Some('/')
    else if c == 'b' then Some(0x08 as char)
    else if c == 'f' then Some(0x0C as char)
    else if c == 'n' then Some('\n')
    else if c == 'r' then Some('\r')
    else if c == 't' then Some('\t')
    else None
  }

  /** Reads the body of a JSON string literal (RFC 8259, section 7): nothing
      when it holds an unescaped quote or control character or a bad escape. */
  function Unescape(s: string): Option<string>
    decreases |s|
  {
    if |s| == 0 then Some("")
    else if s[0] == '\\' then
      if |s| >= 6 && s[1] == 'u' then
        match (UnicodeEscape(s[2], s[3], s[4], s[5]), Unescape(s[6..]))
        case (Some(c), Some(rest)) => Some([c] + rest)
        case _ => None
      else if |s| >= 2 then
        match (ShortEscape(s[1]), Unescape(s[2..]))
        case (Some(c), Some(rest)) => Some([c] + rest)
        case _ => None
      else None
    else if s[0] == '"' || (s[0] as int) < 0x20 then None
    else match Unescape(s[1..])
      case Some(rest) => Some([s[0]] + rest)
      case None => None
  }

  lemma HexValueLowerHex(d: int)
    requires 0 <= d < 16
    ensures HexValue(LowerHex(d)) == Some(d)
  {
  }

  /** A `\u00XX` escape of a control character reads back as it. */
  lemma UnescapeControl(c: char, tail: string)
    requires (c as int) < 0x20
    ensures Unescape(['\\', 'u', '0', '0', LowerHex(c as int / 16), LowerHex(c as int % 16)] + tail) ==
      match Unescape(tail) case Some(r) => Some([c] + r) case None => None
  {
    var n := c as int;
    var s := ['\\', 'u', '0', '0', LowerHex(n / 16), LowerHex(n % 16)] + tail;
    assert s[2] == '0' && s[3] == '0' && s[4] == LowerHex(n / 16) && s[5] == LowerHex(n % 16);
    assert s[6..] == tail;
    HexValueLowerHex(n / 16);
    HexValueLowerHex(n % 16);
    assert UnicodeEscape(s[2], s[3], s[4], s[5]) == Some(c);
  }

  /** A two-character escape reads back as the character it stands for. */
  lemma UnescapeShort(c: char, x: char, tail: string)
    requires ShortEscape(x) == Some(c) && x != 'u'
    ensures Unescape(['\\', x] + tail) ==
      match Unescape(tail) case Some(r) => Some([c] + r) case None => None
  {
    var s := ['\\', x] + tail;
    assert s[1] == x;
    assert s[2..] == tail;
  }

  /** A character written as itself reads back as itself. */
  lemma UnescapePlain(c: char, tail: string)
    requires c != '"' && c != '\\' && (c as int) >= 0x20
    ensures Unescape([c] + tail) ==
      match Unescape(tail) case Some(r) => Some([c] + r) case None => None
  {
    var s := [c] + tail;
    assert s[0] == c;
    assert s[1..] == tail;
  }

  lemma UnescapeEscapeChar(c: char, tail: string)
    ensures Unescape(EscapeChar(c) + tail) ==
      match Unescape(tail) case Some(r) => Some([c] + r) case None => None
  {
    if c == '"' {
      UnescapeShort(c, '"', tail);
    } else if c == '\\' {
      UnescapeShort(c, '\\', tail);
    } else if c as int == 0x08 {
      UnescapeShort(c, 'b', tail);
    } else if c as int == 0x0C {
      UnescapeShort(c, 'f', tail);
    } else if c == '\n' {
      UnescapeShort(c, 'n', tail);
    } else if c == '\r' {
      UnescapeShort(c, 'r', tail);
    } else if c == '\t' {
      UnescapeShort(c, 't', tail);
    } else if (c as int) < 0x20 {
      UnescapeControl(c, tail);
    } else {
      UnescapePlain(c, tail);
    }
  }

  /** Reading an escaped string back yields the original: quoting loses
      nothing and two different strings never print the same. */
  lemma {:induction false} UnescapeEscape(s: string)
    ensures Unescape(Escape(s)) == Some(s)
  {
    if |s| > 0 {
      UnescapeEscapeChar(s[0], Escape(s[1..]));
      UnescapeEscape(s[1..]);
      assert [s[0]] + s[1..] == s;
    }
  }

  /** Two strings with the same literal are the same string. */
  lemma QuoteInjective(s: string, t: string)
    requires Quote(s) == Quote(t)
    ensures s == t
  {
    assert Escape(s) == Quote(s)[1..|Quote(s)| - 1];
    assert Escape(t) == Quote(t)[1..|Quote(t)| - 1];
    UnescapeEscape(s);
    UnescapeEscape(t);
  }

  /** `JSON.stringify(v)`: nothing for `undefined`, otherwise its JSON text.
      Inside an array `undefined` prints as `null`; an object property whose
      value is `undefined` is left out. */
  function Stringify(v: Value): (r: Option<string>)
    ensures r.None? <==> v.Undefined?
    decreases v, 2
  {
    match v
    case Undefined => None
    case Null => Some("null")
    case Bool(b) => Some(if b then "true" else "false")
    case Num(n) => Some(DecimalString(n))
    case Str(s) => Some(Quote(s))
    case Arr(items) => Some("[" + Elements(items, v) + "]")
    case Obj(fields) => Some("{" + Members(fields, v) + "}")
  }

  /** The comma-separated elements of the array `whole`. */
  function Elements(items: seq<Value>, ghost whole: Value): string
    requires forall i :: 0 <= i < |items| ==> items[i] < whole
    decreases whole, 1, |items|
  {
    if |items| == 0 then ""
    else
      var first := Stringify(items[0]).GetOr("null");
      if |items| == 1 then first else first + "," + Elements(items[1..], whole)
  }

  /** The comma-separated `"key":value` members of the object `whole`, without
      the properties whose value is `undefined`. */
  function Members(fields: seq<Field>, ghost whole: Value): string
    requires forall i :: 0 <= i < |fields| ==> fields[i].val < whole
    decreases whole, 1, |fields|
  {
    if |fields| == 0 then ""
    else
      var rest := Members(fields[1..], whole);
      match Stringify(fields[0].val)
      case None => rest
      case Some(t) =>
        var member := Quote(fields[0].key) + ":" + t;
        if rest == "" then member else member + "," + rest
  }

  /** A value with no object anywhere inside it. */
  predicate ObjectFree(v: Value)
    decreases v
  {
    match v
    case Obj(_) => false
    case Arr(items) => forall i :: 0 <= i < |items| ==> ObjectFree(items[i])
    case _ => true
  }

  lemma {:induction false} EscapeLonger(s: string)
    ensures |Escape(s)| >= |s|
  {
    if |s| > 0 {
      EscapeLonger(s[1..]);
    }
  }

  /** Without objects, the JSON text of an array element (`null` for
      `undefined`) is never shorter than the element's comma-join text. */
  lemma {:induction false} ElementLonger(v: Value)
    requires ObjectFree(v)
    ensures |Stringify(v).GetOr("null")| >= |JoinElement(v)|
    decreases v, 1
  {
    match v
    case Str(s) => EscapeLonger(s);
    case Arr(items) => ElementsLonger(items, v);
    case _ =>
  }

  lemma {:induction false} ElementsLonger(items: seq<Value>, whole: Value)
    requires forall i :: 0 <= i < |items| ==> items[i] < whole && ObjectFree(items[i])
    ensures |Elements(items, whole)| >= |JoinArray(items, whole)|
    decreases whole, 0, |items|
  {
    if |items| > 0 {
      ElementLonger(items[0]);
      if |items| > 1 {
        ElementsLonger(items[1..], whole);
      }
    }
  }

  /** The JSON text of an array without objects is strictly longer than its
      comma join, so the two never coincide. */
  lemma ArrayTextLonger(xs: seq<Value>)
    requires forall i :: 0 <= i < |xs| ==> ObjectFree(xs[i])
    ensures |Stringify(Arr(xs)).value| > |JoinArray(xs, Arr(xs))|
  {
    ElementsLonger(xs, Arr(xs));
  }
}
