/** The application/x-www-form-urlencoded format of the WHATWG URL Standard,
    which `URLSearchParams.prototype.toString` produces: the serializer of
    section 5.2 and, as its partner, the parser of section 5.1. */
module FormUrlEncoded {
  import opened Wrappers
  import Utf8
  import JsValue

  /** One name/value entry of a `URLSearchParams` list. */
  datatype Pair = Pair(name: string, value: string)

  /** Bytes the serializer leaves as they are: ASCII alphanumerics and `*-._`.
      Every other byte is in the application/x-www-form-urlencoded
      percent-encode set (the space is written as `+` instead). */
  predicate Unescaped(b: Utf8.byte) {
    || b == 0x2A || b == 0x2D || b == 0x2E || b == 0x5F
    || (0x30 <= b <= 0x39) || (0x41 <= b <= 0x5A) || (0x61 <= b <= 0x7A)
  }

  /** Upper-case hexadecimal digit, as percent-encoding writes it. */
  function HexDigit(d: int): char
    requires 0 <= d < 16
  {
    "0123456789ABCDEF"[d]
  }

  /** The characters a serialized component can contain. In particular never
      `&`, `=`, `?` or `/`. */
  predicate SafeChar(c: char) {
    c == '+' || c == '%' || c == '*' || c == '-' || c == '.' || c == '_'
    || ('0' <= c <= '9') || ('A' <= c <= 'Z') || ('a' <= c <= 'z')
  }

  /** Every character of `s` is one a serialized component can contain. */
  predicate Safe(s: string) {
    forall i :: 0 <= i < |s| ==> SafeChar(s[i])
  }

  /** One byte as the serializer writes it. */
  function EncodeByte(b: Utf8.byte): (r: string)
    ensures Safe(r) && |r| > 0
  {
    if b == 0x20 then "+"
    else if Unescaped(b) then [b as char]
    else
      var hi, lo := b / 16, b % 16;
      HexDigitSafe(hi);
      HexDigitSafe(lo);
      var r := ['%', HexDigit(hi), HexDigit(lo)];
      assert r[0] == '%' && r[1] == HexDigit(hi) && r[2] == HexDigit(lo);
      r
  }

  lemma HexDigitSafe(d: int)
    requires 0 <= d < 16
    ensures SafeChar(HexDigit(d))
  {
  }

  /** The serialized form of a byte sequence. */
  function EncodeBytes(bs: seq<Utf8.byte>): (r: string)
    ensures Safe(r)
    ensures |r| >= |bs|
  {
    if |bs| == 0 then "" else EncodeByte(bs[0]) + EncodeBytes(bs[1..])
  }

  /** Percent-encode after encoding with UTF-8, space as plus: how a name or a
      value of the list is written. */
  function EncodeComponent(s: string): (r: string)
    ensures Safe(r)
    ensures |r| >= |s|
  {
    EncodeBytes(Utf8.Encode(s))
  }

  /** One entry as `name=value`. */
  function PairText(p: Pair): (r: string)
    ensures |r| > 0
  {
    EncodeComponent(p.name) + "=" + EncodeComponent(p.value)
  }

  /** The application/x-www-form-urlencoded serializer: the entries in list
      order, separated by `&`. */
  function Serialize(ps: seq<Pair>): string {
    if |ps| == 0 then ""
    else if |ps| == 1 then PairText(ps[0])
    else PairText(ps[0]) + "&" + Serialize(ps[1..])
  }

  /** The characters of a serialized list: those of its components, `=` and
      `&`. */
  predicate QueryText(s: string) {
    forall i :: 0 <= i < |s| ==> SafeChar(s[i]) || s[i] == '=' || s[i] == '&'
  }

  lemma QueryTextConcat(a: string, b: string)
    requires QueryText(a) && QueryText(b)
    ensures QueryText(a + b)
  {
    forall i | 0 <= i < |a + b|
      ensures SafeChar((a + b)[i]) || (a + b)[i] == '=' || (a + b)[i] == '&'
    {
      if i >= |a| {
        assert (a + b)[i] == b[i - |a|];
      }
    }
  }

  lemma PairTextQuery(p: Pair)
    ensures QueryText(PairText(p))
  {
    var n := EncodeComponent(p.name);
    var v := EncodeComponent(p.value);
    QueryTextConcat(n, "=");
    QueryTextConcat(n + "=", v);
  }

  /** A serialized list holds component characters, `=` and `&` only, so
      never `?` or `#`. */
  lemma {:induction false} SerializeQueryText(ps: seq<Pair>)
    ensures QueryText(Serialize(ps))
  {
    if |ps| == 1 {
      PairTextQuery(ps[0]);
    } else if |ps| > 1 {
      PairTextQuery(ps[0]);
      SerializeQueryText(ps[1..]);
      QueryTextConcat(PairText(ps[0]), "&");
      QueryTextConcat(PairText(ps[0]) + "&", Serialize(ps[1..]));
    }
  }

  /** The serialization is empty exactly when the list is: every entry writes
      at least its `=`. */
  lemma SerializeEmptyIff(ps: seq<Pair>)
    ensures Serialize(ps) == "" <==> |ps| == 0
  {
  }

  /** The index of the first `c` in `s`, or `|s|` when there is none. */
  function Find(s: string, c: char): (r: nat)
    ensures r <= |s|
    ensures forall j :: 0 <= j < r ==> s[j] != c
    ensures r < |s| ==> s[r] == c
  {
    if |s| == 0 then 0 else if s[0] == c then 0 else 1 + Find(s[1..], c)
  }

  /** Strictly splitting `s` on `c`: the pieces between occurrences of `c`. */
  function Split(s: string, c: char): (r: seq<string>)
    ensures |r| > 0
    decreases |s|
  {
    var i := Find(s, c);
    if i == |s| then [s] else [s[..i]] + Split(s[i + 1..], c)
  }

  /** Percent-decoding with `+` read as a space. The standard replaces `+`
      bytes with spaces and then percent-decodes the byte sequence; working on
      characters, a non-ASCII character stands for its own UTF-8 bytes, and
      `%`, `+` and the hex digits are ASCII, so the result is the same. */
  function PercentDecode(s: string): seq<Utf8.byte>
    decreases |s|
  {
    if |s| == 0 then []
    else if s[0] == '%' && |s| >= 3 && JsValue.HexValue(s[1]).Some? && JsValue.HexValue(s[2]).Some? then
      [JsValue.HexValue(s[1]).value * 16 + JsValue.HexValue(s[2]).value] + PercentDecode(s[3..])
    else if s[0] == '+' then [0x20] + PercentDecode(s[1..])
    else Utf8.EncodeChar(s[0]) + PercentDecode(s[1..])
  }

  /** Decoding one component. The standard substitutes U+FFFD for ill-formed
      UTF-8; this reader rejects it instead, which the serializer never
      produces. */
  function DecodeComponent(s: string): Option<string> {
    Utf8.Decode(PercentDecode(s))
  }

  /** One non-empty `&`-separated piece: name up to the first `=`, value after
      it (empty when there is no `=`). */
  function ParsePiece(piece: string): Option<Pair> {
    var i := Find(piece, '=');
    var name := piece[..i];
    var value := if i < |piece| then piece[i + 1..] else "";
    match (DecodeComponent(name), DecodeComponent(value))
    case (Some(n), Some(v)) => Some(Pair(n, v))
    case _ => None
  }

  /** The entries of a list of pieces, skipping empty ones. */
  function ParsePieces(pieces: seq<string>): Option<seq<Pair>> {
    if |pieces| == 0 then Some([])
    else
      var rest := ParsePieces(pieces[1..]);
      if |pieces[0]| == 0 then rest
      else match (ParsePiece(pieces[0]), rest)
        case (Some(p), Some(ps)) => Some([p] + ps)
        case _ => None
  }

  /** The application/x-www-form-urlencoded parser. */
  function Parse(q: string): Option<seq<Pair>> {
    ParsePieces(Split(q, '&'))
  }

  lemma HexDigitValue(d: int)
    requires 0 <= d < 16
    ensures JsValue.HexValue(HexDigit(d)) == Some(d)
  {
  }

  /** Decoding the text of one byte yields that byte and leaves what follows
      for the rest of the decoding. */
  lemma PercentDecodeByte(b: Utf8.byte, tail: string)
    ensures PercentDecode(EncodeByte(b) + tail) == [b] + PercentDecode(tail)
  {
    if b == 0x20 {
      PercentDecodePlus(tail);
    } else if Unescaped(b) {
      PercentDecodeUnescaped(b, tail);
    } else {
      PercentDecodeEscaped(b, tail);
    }
  }

  lemma PercentDecodePlus(tail: string)
    ensures PercentDecode("+" + tail) == [0x20] + PercentDecode(tail)
  {
    var s := "+" + tail;
    assert s[0] == '+' && s[1..] == tail;
  }

  lemma PercentDecodeUnescaped(b: Utf8.byte, tail: string)
    requires Unescaped(b)
    ensures PercentDecode([b as char] + tail) == [b] + PercentDecode(tail)
  {
    var s := [b as char] + tail;
    assert s[0] == b as char && s[1..] == tail;
    assert Utf8.EncodeChar(b as char) == [b];
  }

  lemma PercentDecodeTriple(x: char, y: char, tail: string)
    requires JsValue.HexValue(x).Some? && JsValue.HexValue(y).Some?
    ensures PercentDecode(['%', x, y] + tail) == [JsValue.HexValue(x).value * 16 + JsValue.HexValue(y).value] + PercentDecode(tail)
  {
    var s := ['%', x, y] + tail;
    assert s[0] == '%' && s[1] == x && s[2] == y;
    assert s[3..] == tail;
  }

  lemma PercentDecodeEscaped(b: Utf8.byte, tail: string)
    ensures PercentDecode(['%', HexDigit(b / 16), HexDigit(b % 16)] + tail) == [b] + PercentDecode(tail)
  {
    var hi, lo := b / 16, b % 16;
    HexDigitValue(hi);
    HexDigitValue(lo);
    PercentDecodeTriple(HexDigit(hi), HexDigit(lo), tail);
    assert hi * 16 + lo == b;
  }

  lemma {:induction false} PercentDecodeEncodeBytes(bs: seq<Utf8.byte>)
    ensures PercentDecode(EncodeBytes(bs)) == bs
  {
    if |bs| > 0 {
      PercentDecodeByte(bs[0], EncodeBytes(bs[1..]));
      PercentDecodeEncodeBytes(bs[1..]);
    }
  }

  /** Every name and value decodes back to itself. */
  lemma DecodeEncodeComponent(s: string)
    ensures DecodeComponent(EncodeComponent(s)) == Some(s)
  {
    PercentDecodeEncodeBytes(Utf8.Encode(s));
    Utf8.DecodeEncode(s);
  }

  /** In `a + [c] + b`, with no `c` in `a`, the first `c` is the one after `a`. */
  lemma FindAfter(a: string, c: char, b: string)
    requires forall i :: 0 <= i < |a| ==> a[i] != c
    ensures Find(a + [c] + b, c) == |a|
  {
    var s := a + [c] + b;
    assert forall j :: 0 <= j < |a| ==> s[j] == a[j];
    assert s[|a|] == c;
  }

  /** Splitting `a + [c] + b`, with no `c` in `a`, gives `a` and then the
      pieces of `b`. */
  lemma SplitAfter(a: string, c: char, b: string)
    requires forall i :: 0 <= i < |a| ==> a[i] != c
    ensures Split(a + [c] + b, c) == [a] + Split(b, c)
  {
    var s := a + [c] + b;
    FindAfter(a, c, b);
    assert s[..|a|] == a;
    assert s[|a| + 1..] == b;
  }

  lemma SplitAbsent(a: string, c: char)
    requires forall i :: 0 <= i < |a| ==> a[i] != c
    ensures Split(a, c) == [a]
  {
    FindAbsent(a, c);
  }

  lemma FindAbsent(a: string, c: char)
    requires forall i :: 0 <= i < |a| ==> a[i] != c
    ensures Find(a, c) == |a|
  {
  }

  lemma ParsePairText(p: Pair)
    ensures ParsePiece(PairText(p)) == Some(p)
  {
    var n := EncodeComponent(p.name);
    var v := EncodeComponent(p.value);
    var t := PairText(p);
    assert t == n + ['='] + v;
    FindAfter(n, '=', v);
    assert t[..|n|] == n;
    assert t[|n| + 1..] == v;
    DecodeEncodeComponent(p.name);
    DecodeEncodeComponent(p.value);
  }

  /** The texts of the entries, in order. */
  function PairTexts(ps: seq<Pair>): (r: seq<string>)
    ensures |r| == |ps|
    ensures forall i :: 0 <= i < |ps| ==> r[i] == PairText(ps[i])
  {
    if |ps| == 0 then [] else [PairText(ps[0])] + PairTexts(ps[1..])
  }

  lemma {:induction false} SplitSerialize(ps: seq<Pair>)
    requires |ps| > 0
    ensures Split(Serialize(ps), '&') == PairTexts(ps)
  {
    var t := PairText(ps[0]);
    assert Safe(EncodeComponent(ps[0].name)) && Safe(EncodeComponent(ps[0].value));
    assert forall i :: 0 <= i < |t| ==> t[i] != '&';
    if |ps| == 1 {
      SplitAbsent(t, '&');
    } else {
      var rest := Serialize(ps[1..]);
      assert Serialize(ps) == t + ['&'] + rest;
      SplitAfter(t, '&', rest);
      SplitSerialize(ps[1..]);
    }
  }

  lemma {:induction false} ParsePairTexts(ps: seq<Pair>)
    ensures ParsePieces(PairTexts(ps)) == Some(ps)
  {
    if |ps| > 0 {
      ParsePairText(ps[0]);
      assert PairTexts(ps)[1..] == PairTexts(ps[1..]);
      ParsePairTexts(ps[1..]);
      assert [ps[0]] + ps[1..] == ps;
    }
  }

  /** Parsing a serialization gives back the list, entry for entry and in
      order, whatever characters the names and values hold: the upstream
      receives exactly the parameters that were appended. */
  lemma ParseSerialize(ps: seq<Pair>)
    ensures Parse(Serialize(ps)) == Some(ps)
  {
    if |ps| == 0 {
      assert Split("", '&') == [""];
    } else {
      SplitSerialize(ps);
      ParsePairTexts(ps);
    }
  }

  /** The serializer is injective: two lists with the same text are equal. */
  lemma SerializeInjective(ps: seq<Pair>, qs: seq<Pair>)
    requires Serialize(ps) == Serialize(qs)
    ensures ps == qs
  {
    ParseSerialize(ps);
    ParseSerialize(qs);
  }
}
