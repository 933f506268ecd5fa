/** The JavaScript values the gateway inspects: upstream response bodies, error
    payloads and query parameters. Numbers are integers here; see README. */
module JsValue {
  import opened Wrappers

  /** A JavaScript value as far as this model needs one. An object keeps its
      properties in insertion order, which is the order `Object.entries` and
      `JSON.stringify` use. A JavaScript object has each key once
      (`UniqueKeys`); a field list with a repeated key describes no object,
      and `Lookup` on it reads the first occurrence. */
  datatype Value =
    | Undefined
    | Null
    | Bool(b: bool)
    | Num(n: int)
    | Str(s: string)
    | Arr(items: seq<Value>)
    | Obj(fields: seq<Field>)

  /** One own property of an object. */
  datatype Field = Field(key: string, val: Value)

  /** JavaScript truthiness: `undefined`, `null`, `false`, `0` and `""` are falsy. */
  predicate Truthy(v: Value) {
    match v
    case Undefined => false
    case Null => false
    case Bool(b) => b
    case Num(n) => n != 0
    case Str(s) => s != ""
    case Arr(_) => true
    case Obj(_) => true
  }

  /** The value stored under `key` in a property list, `undefined` when absent. */
  function Lookup(fields: seq<Field>, key: string): (r: Value)
    ensures r != Undefined ==> exists i :: 0 <= i < |fields| && fields[i].key == key && fields[i].val == r
    ensures (forall i :: 0 <= i < |fields| ==> fields[i].key != key) ==> r == Undefined
  {
    if |fields| == 0 then Undefined
    else if fields[0].key == key then fields[0].val
    else Lookup(fields[1..], key)
  }

  /** No two properties share a key, as in every JavaScript object. */
  predicate UniqueKeys(fields: seq<Field>) {
    forall i, j :: 0 <= i < j < |fields| ==> fields[i].key != fields[j].key
  }

  /** In an object with unique keys, a property read finds exactly the
      value stored under that key. */
  lemma {:induction false} LookupUnique(fields: seq<Field>, i: nat)
    requires UniqueKeys(fields) && i < |fields|
    ensures Lookup(fields, fields[i].key) == fields[i].val
  {
    if i > 0 {
      assert fields[0].key != fields[i].key;
      assert fields[1..][i - 1] == fields[i];
      LookupUnique(fields[1..], i - 1);
    }
  }

  /** Optional-chaining property read `v?.[key]`: only objects carry the
      properties this model reads; on anything else the read is `undefined`. */
  function Prop(v: Value, key: string): Value {
    if v.Obj? then Lookup(v.fields, key) else Undefined
  }

  /** The characters `String.prototype.trim` removes: WhiteSpace and
      LineTerminator of ECMA-262 (sections 12.2 and 12.3). */
  predicate IsJsSpace(c: char) {
    var n := c as int;
    || n == 0x09 || n == 0x0B || n == 0x0C || n == 0x20 || n == 0xA0 || n == 0xFEFF
    || n == 0x1680 || (0x2000 <= n <= 0x200A) || n == 0x202F || n == 0x205F || n == 0x3000
    || n == 0x0A || n == 0x0D || n == 0x2028 || n == 0x2029
  }

  /** The number of whitespace characters `s` starts with. */
  function LeadingSpaces(s: string): (n: nat)
    ensures n <= |s|
    ensures forall i :: 0 <= i < n ==> IsJsSpace(s[i])
    ensures n == |s| || !IsJsSpace(s[n])
  {
    if |s| > 0 && IsJsSpace(s[0]) then
      var m := LeadingSpaces(s[1..]);
      assert forall i :: 1 <= i <= m ==> s[i] == s[1..][i - 1];
      assert m < |s| - 1 ==> s[m + 1] == s[1..][m];
      m + 1
    else 0
  }

  /** The number of whitespace characters `s` ends with. */
  function TrailingSpaces(s: string): (n: nat)
    ensures n <= |s|
    ensures forall i :: |s| - n <= i < |s| ==> IsJsSpace(s[i])
    ensures n == |s| || !IsJsSpace(s[|s| - n - 1])
  {
    if |s| > 0 && IsJsSpace(s[|s| - 1]) then
      var m := TrailingSpaces(s[..|s| - 1]);
      assert forall i :: 0 <= i < |s| - 1 ==> s[i] == s[..|s| - 1][i];
      m + 1
    else 0
  }

  /** `s` without its leading whitespace: the longest all-space prefix is dropped. */
  function TrimStart(s: string): (r: string)
    ensures |r| <= |s| && r == s[|s| - |r|..]
    ensures |r| == 0 || !IsJsSpace(r[0])
    ensures forall i :: 0 <= i < |s| - |r| ==> IsJsSpace(s[i])
  {
    s[LeadingSpaces(s)..]
  }

  /** `s` without its trailing whitespace: the longest all-space suffix is dropped. */
  function TrimEnd(s: string): (r: string)
    ensures |r| <= |s| && r == s[..|r|]
    ensures |r| == 0 || !IsJsSpace(r[|r| - 1])
    ensures forall i :: |r| <= i < |s| ==> IsJsSpace(s[i])
  {
    s[..|s| - TrailingSpaces(s)]
  }

  /** `String.prototype.trim`. */
  function Trim(s: string): string {
    TrimEnd(TrimStart(s))
  }

  /** `s` has a character that is not whitespace. */
  predicate NonBlank(s: string) {
    exists i :: 0 <= i < |s| && !IsJsSpace(s[i])
  }

  /** `s.trim().length > 0` holds exactly when `s` has a character that is not
      whitespace. */
  lemma TrimEmptyIffBlank(s: string)
    ensures |Trim(s)| > 0 <==> NonBlank(s)
  {
    var t := TrimStart(s);
    if |Trim(s)| > 0 {
      var k := |s| - |t|;
      assert t[0] == s[k];
    } else {
      assert |t| == 0;
    }
  }

  /** The value of a hexadecimal digit of either case, if `c` is one. */
  function HexValue(c: char): (r: Option<int>)
    ensures r.Some? ==> 0 <= r.value < 16
  {
    if '0' <= c <= '9' then Some(c as int - '0' as int)
    else if 'A' <= c <= 'F' then Some(c as int - 'A' as int + 10)
    else if 'a' <= c <= 'f' then Some(c as int - 'a' as int + 10)
    else None
  }

  /** The decimal digit for `d`. */
  function DigitChar(d: int): char
    requires 0 <= d < 10
  {
    "0123456789"[d]
  }

  /** The value of a decimal digit character. */
  function DigitValue(c: char): int
    requires '0' <= c <= '9'
  {
    c as int - '0' as int
  }

  /** Every character of `s` is a decimal digit. */
  predicate AllDigits(s: string) {
    forall i :: 0 <= i < |s| ==> '0' <= s[i] <= '9'
  }

  /** The decimal digits of a natural number, most significant first, without
      leading zeros. */
  function Digits(n: nat): (r: string)
    ensures |r| > 0
    ensures AllDigits(r)
    ensures |r| > 1 ==> r[0] != '0'
    decreases n
  {
    if n < 10 then [DigitChar(n)] else Digits(n / 10) + [DigitChar(n % 10)]
  }

  /** `Number.prototype.toString()` of an integer: an optional minus sign followed
      by its decimal digits. */
  function DecimalString(n: int): string {
    if n < 0 then "-" + Digits(-n) else Digits(n)
  }

  /** The natural number written by a string of decimal digits. */
  function DigitsValue(s: string): nat
    requires AllDigits(s)
  {
    if |s| == 0 then 0 else DigitsValue(s[..|s| - 1]) * 10 + DigitValue(s[|s| - 1])
  }

  /** Reads back an integer written by `DecimalString`. */
  function ParseDecimal(s: string): Option<int> {
    if |s| > 1 && s[0] == '-' && AllDigits(s[1..]) then
      Some(-(DigitsValue(s[1..]) as int))
    else if |s| > 0 && AllDigits(s) then
      Some(DigitsValue(s))
    else None
  }

  lemma DigitValueOfChar(d: int)
    requires 0 <= d < 10
    ensures DigitValue(DigitChar(d)) == d
  {
  }

  lemma {:induction false} DigitsRoundTrip(n: nat)
    ensures DigitsValue(Digits(n)) == n
    decreases n
  {
    if n >= 10 {
      var q, m := n / 10, n % 10;
      var p := Digits(q);
      var d := Digits(n);
      assert d == p + [DigitChar(m)];
      assert d[..|d| - 1] == p;
      DigitValueOfChar(m);
      DigitsRoundTrip(q);
      assert q * 10 + m == n;
    } else {
      DigitValueOfChar(n);
    }
  }

  lemma ParseUnsigned(d: string)
    requires |d| > 0 && AllDigits(d)
    ensures ParseDecimal(d) == Some(DigitsValue(d))
  {
    assert '0' <= d[0] <= '9';
  }

  lemma ParseNegative(d: string)
    requires |d| > 0 && AllDigits(d)
    ensures ParseDecimal("-" + d) == Some(-(DigitsValue(d) as int))
  {
    var s := "-" + d;
    assert s[1..] == d;
  }

  /** Every integer's decimal text reads back as that integer, so the rendering
      loses nothing. */
  lemma DecimalRoundTrip(n: int)
    ensures ParseDecimal(DecimalString(n)) == Some(n)
  {
    if n < 0 {
      var m: nat := -n;
      var d := Digits(m);
      DigitsRoundTrip(m);
      ParseNegative(d);
      assert DecimalString(n) == "-" + d;
    } else {
      var d := Digits(n);
      DigitsRoundTrip(n);
      ParseUnsigned(d);
      assert DecimalString(n) == d;
    }
  }

  /** `Array.prototype.toString` (a comma join) of one element: `null` and
      `undefined` become empty, nested arrays are joined, objects print as
      `[object Object]`. */
  function JoinElement(v: Value): string
    decreases v, 1
  {
    match v
    case Undefined => ""
    case Null => ""
    case Bool(b) => if b then "true" else "false"
    case Num(n) => DecimalString(n)
    case Str(s) => s
    case Arr(items) => JoinArray(items, v)
    case Obj(_) => "[object Object]"
  }

  /** The comma join of the elements of the array `whole`. */
  function JoinArray(items: seq<Value>, ghost whole: Value): string
    requires forall i :: 0 <= i < |items| ==> items[i] < whole
    decreases whole, 0, |items|
  {
    if |items| == 0 then ""
    else if |items| == 1 then JoinElement(items[0])
    else JoinElement(items[0]) + "," + JoinArray(items[1..], whole)
  }

}
