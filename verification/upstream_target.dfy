/** How the upstream reads an endpoint the services build: the fragment is
    dropped, the path runs up to the first `?` and is split on `/`, and the
    rest is an application/x-www-form-urlencoded query. Services write their
    endpoints as string templates; this reading is the independent view their
    contracts are stated in. */
module UpstreamTarget {
  import opened Wrappers
  import FormUrlEncoded

  /** The resource an endpoint addresses: its path segments and query entries. */
  datatype Target = Target(segments: seq<string>, query: seq<FormUrlEncoded.Pair>)

  /** The text the services append after the path: `?` and the serialized
      query, or nothing when the serialization is empty. */
  function QuerySuffix(ps: seq<FormUrlEncoded.Pair>): (r: string)
    ensures r == "" <==> |ps| == 0
  {
    FormUrlEncoded.SerializeEmptyIff(ps);
    var q := FormUrlEncoded.Serialize(ps);
    if q != "" then "?" + q else ""
  }

  /** A character the WHATWG URL parser treats specially inside a path of a
      special scheme: `/` and `\` separate segments, `?` and `#` end the
      path, tab, LF and CR are removed, and C0 controls and space are
      stripped when they end the URL (section 4.4 of the WHATWG URL Standard). */
  predicate PathSpecial(c: char) {
    c == '/' || c == '\\' || c == '?' || c == '#' || c <= ' '
  }

  /** The number of `.` units a segment is made of, where `%2e` and `%2E`
      also count as one; nothing when the segment holds anything else. */
  function DotUnits(s: string): (r: Option<nat>)
    ensures r.Some? && r.value == 0 <==> s == ""
  {
    if |s| == 0 then Some(0)
    else if s[0] == '.' then
      match DotUnits(s[1..]) case Some(n) => Some(n + 1) case None => None
    else if |s| >= 3 && s[0] == '%' && s[1] == '2' && (s[2] == 'e' || s[2] == 'E') then
      match DotUnits(s[3..]) case Some(n) => Some(n + 1) case None => None
    else None
  }

  /** A single-dot or double-dot segment, which the URL parser resolves
      instead of keeping: `.`, `..` and their `%2e` spellings. */
  predicate DotSegment(s: string) {
    DotUnits(s) == Some(1) || DotUnits(s) == Some(2)
  }

  /** An id that the URL parser keeps as exactly one path segment when it is
      interpolated: no special character, and not a dot segment. */
  predicate SegmentSafe(s: string) {
    (forall i :: 0 <= i < |s| ==> !PathSpecial(s[i])) && !DotSegment(s)
  }

  /** Dot segments and ids with a backslash or a line break are not safe. */
  lemma UnsafeIds(s: string)
    ensures !SegmentSafe(".") && !SegmentSafe("..")
    ensures !SegmentSafe("%2e") && !SegmentSafe("%2E%2e") && !SegmentSafe(".%2e")
    ensures !SegmentSafe(s + "\\") && !SegmentSafe(s + "\t") && !SegmentSafe(s + "\n") && !SegmentSafe(s + "\r")
  {
    assert (s + "\\")[|s|] == '\\';
    assert (s + "\t")[|s|] == '\t';
    assert (s + "\n")[|s|] == '\n';
    assert (s + "\r")[|s|] == '\r';
  }

  /** `/seg1/seg2/...`. */
  function Path(segments: seq<string>): string {
    if |segments| == 0 then "" else "/" + segments[0] + Path(segments[1..])
  }

  /** The target an endpoint addresses, or nothing when it is not an absolute
      path or its query is not well-formed. */
  function Read(endpoint: string): Option<Target> {
    ReadWithoutFragment(endpoint[..FormUrlEncoded.Find(endpoint, '#')])
  }

  /** The target of an endpoint that has no fragment. */
  function ReadWithoutFragment(e: string): Option<Target> {
    var i := FormUrlEncoded.Find(e, '?');
    var path := e[..i];
    var query := if i < |e| then e[i + 1..] else "";
    if |path| == 0 || path[0] != '/' then None
    else match FormUrlEncoded.Parse(query)
      case None => None
      case Some(ps) => Some(Target(FormUrlEncoded.Split(path[1..], '/'), ps))
  }

  lemma DropSlash(a: string, b: string)
    ensures ("/" + a + b)[1..] == a + b
  {
  }

  /** After its leading `/`, a path is its first segment followed by the path
      of the others. */
  lemma PathTail(segments: seq<string>)
    requires |segments| > 0
    ensures Path(segments)[1..] == segments[0] + Path(segments[1..])
  {
    DropSlash(segments[0], Path(segments[1..]));
  }

  lemma PathChars(segments: seq<string>)
    requires forall k :: 0 <= k < |segments| ==> SegmentSafe(segments[k])
    ensures forall i :: 0 <= i < |Path(segments)| ==> Path(segments)[i] != '?' && Path(segments)[i] != '#'
  {
    if |segments| > 0 {
      PathChars(segments[1..]);
      var p := Path(segments);
      var head := "/" + segments[0];
      assert p == head + Path(segments[1..]);
      forall i | 0 <= i < |p| ensures p[i] != '?' && p[i] != '#' {
        if i >= |head| {
          assert p[i] == Path(segments[1..])[i - |head|];
        }
      }
    }
  }

  lemma {:induction false} SplitPath(segments: seq<string>)
    requires |segments| > 0
    requires forall k :: 0 <= k < |segments| ==> SegmentSafe(segments[k])
    ensures FormUrlEncoded.Split(segments[0] + Path(segments[1..]), '/') == segments
  {
    var rest := segments[1..];
    assert SegmentSafe(segments[0]);
    if |rest| == 0 {
      FormUrlEncoded.SplitAbsent(segments[0], '/');
      assert segments[0] + Path(rest) == segments[0];
    } else {
      var tail := rest[0] + Path(rest[1..]);
      assert Path(rest) == ['/'] + tail;
      assert segments[0] + Path(rest) == segments[0] + ['/'] + tail;
      FormUrlEncoded.SplitAfter(segments[0], '/', tail);
      assert forall k :: 0 <= k < |rest| ==> rest[k] == segments[k + 1];
      SplitPath(rest);
      assert [segments[0]] + rest == segments;
    }
  }

  lemma SuffixChars(ps: seq<FormUrlEncoded.Pair>)
    ensures forall i :: 0 <= i < |QuerySuffix(ps)| ==> QuerySuffix(ps)[i] != '#'
  {
    SerializeSafe(ps);
    var q := FormUrlEncoded.Serialize(ps);
    if q != "" {
      var suffix := QuerySuffix(ps);
      assert suffix == "?" + q;
      assert forall i :: 1 <= i < |suffix| ==> suffix[i] == q[i - 1];
    }
  }

  lemma NoFragment(segments: seq<string>, ps: seq<FormUrlEncoded.Pair>)
    requires forall k :: 0 <= k < |segments| ==> SegmentSafe(segments[k])
    ensures Read(Path(segments) + QuerySuffix(ps)) == ReadWithoutFragment(Path(segments) + QuerySuffix(ps))
  {
    var p := Path(segments);
    var suffix := QuerySuffix(ps);
    var endpoint := p + suffix;
    PathChars(segments);
    SuffixChars(ps);
    assert forall i :: 0 <= i < |endpoint| ==> endpoint[i] != '#' by {
      forall i | 0 <= i < |endpoint| ensures endpoint[i] != '#' {
        if i >= |p| {
          assert endpoint[i] == suffix[i - |p|];
        }
      }
    }
    FormUrlEncoded.FindAbsent(endpoint, '#');
    assert endpoint[..|endpoint|] == endpoint;
  }

  lemma ReadPathOnly(segments: seq<string>)
    requires |segments| > 0
    requires forall k :: 0 <= k < |segments| ==> SegmentSafe(segments[k])
    ensures ReadWithoutFragment(Path(segments)) == Some(Target(segments, []))
  {
    var p := Path(segments);
    PathChars(segments);
    FormUrlEncoded.FindAbsent(p, '?');
    assert p[..|p|] == p;
    assert FormUrlEncoded.Split("", '&') == [""];
    assert FormUrlEncoded.Parse("") == Some([]);
    SplitPath(segments);
    PathTail(segments);
  }

  lemma ReadPathAndQuery(segments: seq<string>, q: string, ps: seq<FormUrlEncoded.Pair>)
    requires |segments| > 0
    requires forall k :: 0 <= k < |segments| ==> SegmentSafe(segments[k])
    requires FormUrlEncoded.Parse(q) == Some(ps)
    ensures ReadWithoutFragment(Path(segments) + "?" + q) == Some(Target(segments, ps))
  {
    var p := Path(segments);
    var endpoint := p + "?" + q;
    PathChars(segments);
    assert endpoint == p + ['?'] + q;
    FormUrlEncoded.FindAfter(p, '?', q);
    assert endpoint[..|p|] == p;
    assert endpoint[|p| + 1..] == q;
    SplitPath(segments);
    PathTail(segments);
  }

  /** An endpoint written as a path of safe segments followed by a query suffix
      reads back as exactly those segments and entries. */
  lemma ReadEndpoint(segments: seq<string>, ps: seq<FormUrlEncoded.Pair>)
    requires |segments| > 0
    requires forall k :: 0 <= k < |segments| ==> SegmentSafe(segments[k])
    ensures Read(Path(segments) + QuerySuffix(ps)) == Some(Target(segments, ps))
  {
    NoFragment(segments, ps);
    var q := FormUrlEncoded.Serialize(ps);
    var p := Path(segments);
    var suffix := QuerySuffix(ps);
    if q == "" {
      FormUrlEncoded.SerializeEmptyIff(ps);
      AppendNothing(p, suffix);
      ReadPathOnly(segments);
    } else {
      FormUrlEncoded.ParseSerialize(ps);
      ReadPathAndQuery(segments, q, ps);
      AppendQuery(p, suffix, q);
    }
  }

  lemma AppendNothing(p: string, suffix: string)
    requires suffix == ""
    ensures p + suffix == p
  {
  }

  lemma AppendQuery(p: string, suffix: string, q: string)
    requires suffix == "?" + q
    ensures p + suffix == p + "?" + q
  {
  }

  lemma SerializeSafe(ps: seq<FormUrlEncoded.Pair>)
    ensures forall i :: 0 <= i < |FormUrlEncoded.Serialize(ps)| ==>
      FormUrlEncoded.Serialize(ps)[i] != '?' && FormUrlEncoded.Serialize(ps)[i] != '#'
  {
    FormUrlEncoded.SerializeQueryText(ps);
  }

  /** The paths of one to four segments, written out. */
  lemma PathOne(a: string)
    ensures Path([a]) == "/" + a
  {
    assert [a][1..] == [];
  }

  lemma PathTwo(a: string, b: string)
    ensures Path([a, b]) == "/" + a + "/" + b
  {
    assert [a, b][1..] == [b];
    PathOne(b);
  }

  lemma PathThree(a: string, b: string, c: string)
    ensures Path([a, b, c]) == "/" + a + "/" + b + "/" + c
  {
    assert [a, b, c][1..] == [b, c];
    PathTwo(b, c);
  }

  lemma PathFour(a: string, b: string, c: string, d: string)
    ensures Path([a, b, c, d]) == "/" + a + "/" + b + "/" + c + "/" + d
  {
    assert [a, b, c, d][1..] == [b, c, d];
    PathThree(b, c, d);
  }

  /** The endpoints of one to four interpolated segments read back as those
      segments, provided every segment is safe. */
  lemma ReadOne(a: string, ps: seq<FormUrlEncoded.Pair>)
    ensures SegmentSafe(a) ==> Read("/" + a + QuerySuffix(ps)) == Some(Target([a], ps))
  {
    if SegmentSafe(a) {
      PathOne(a);
      ReadEndpoint([a], ps);
    }
  }

  lemma ReadTwo(a: string, b: string, ps: seq<FormUrlEncoded.Pair>)
    ensures SegmentSafe(a) && SegmentSafe(b) ==>
      Read("/" + a + "/" + b + QuerySuffix(ps)) == Some(Target([a, b], ps))
  {
    if SegmentSafe(a) && SegmentSafe(b) {
      PathTwo(a, b);
      ReadEndpoint([a, b], ps);
    }
  }

  lemma ReadThree(a: string, b: string, c: string, ps: seq<FormUrlEncoded.Pair>)
    ensures SegmentSafe(a) && SegmentSafe(b) && SegmentSafe(c) ==>
      Read("/" + a + "/" + b + "/" + c + QuerySuffix(ps)) == Some(Target([a, b, c], ps))
  {
    if SegmentSafe(a) && SegmentSafe(b) && SegmentSafe(c) {
      PathThree(a, b, c);
      ReadEndpoint([a, b, c], ps);
    }
  }

  lemma ReadFour(a: string, b: string, c: string, d: string, ps: seq<FormUrlEncoded.Pair>)
    ensures SegmentSafe(a) && SegmentSafe(b) && SegmentSafe(c) && SegmentSafe(d) ==>
      Read("/" + a + "/" + b + "/" + c + "/" + d + QuerySuffix(ps)) == Some(Target([a, b, c, d], ps))
  {
    if SegmentSafe(a) && SegmentSafe(b) && SegmentSafe(c) && SegmentSafe(d) {
      PathFour(a, b, c, d);
      ReadEndpoint([a, b, c, d], ps);
    }
  }

  /** A template literal such as `/list/${id}/task` is the path of its
      literal and interpolated segments. */
  lemma SpliceTwo(a: string, x: string, id: string, q: string)
    requires a == "/" + x + "/"
    ensures a + id + q == "/" + x + "/" + id + q
  {
  }

  lemma SpliceThree(a: string, x: string, id: string, b: string, y: string, q: string)
    requires a == "/" + x + "/" && b == "/" + y
    ensures a + id + b + q == "/" + x + "/" + id + "/" + y + q
  {
  }

  lemma SpliceFour(a: string, x: string, w: string, b: string, y: string, u: string, q: string)
    requires a == "/" + x + "/" && b == "/" + y + "/"
    ensures a + w + b + u + q == "/" + x + "/" + w + "/" + y + "/" + u + q
  {
  }

  /** Endpoints written as template literals read back as their segments. */
  lemma ReadTemplateOne(a: string, x: string)
    requires a == "/" + x && SegmentSafe(x)
    ensures Read(a) == Some(Target([x], []))
  {
    ReadOne(x, []);
    assert a + QuerySuffix([]) == a;
  }

  lemma ReadTemplateTwo(a: string, x: string, id: string, ps: seq<FormUrlEncoded.Pair>)
    requires a == "/" + x + "/" && SegmentSafe(x)
    ensures SegmentSafe(id) ==> Read(a + id + QuerySuffix(ps)) == Some(Target([x, id], ps))
  {
    ReadTwo(x, id, ps);
    SpliceTwo(a, x, id, QuerySuffix(ps));
  }

  lemma ReadTemplateThree(a: string, x: string, id: string, b: string, y: string, ps: seq<FormUrlEncoded.Pair>)
    requires a == "/" + x + "/" && b == "/" + y && SegmentSafe(x) && SegmentSafe(y)
    ensures SegmentSafe(id) ==> Read(a + id + b + QuerySuffix(ps)) == Some(Target([x, id, y], ps))
  {
    ReadThree(x, id, y, ps);
    SpliceThree(a, x, id, b, y, QuerySuffix(ps));
  }

  lemma ReadTemplateFour(a: string, x: string, w: string, b: string, y: string, u: string, ps: seq<FormUrlEncoded.Pair>)
    requires a == "/" + x + "/" && b == "/" + y + "/" && SegmentSafe(x) && SegmentSafe(y)
    ensures SegmentSafe(w) && SegmentSafe(u) ==>
      Read(a + w + b + u + QuerySuffix(ps)) == Some(Target([x, w, y, u], ps))
  {
    ReadFour(x, w, y, u, ps);
    SpliceFour(a, x, w, b, y, u, QuerySuffix(ps));
  }
}
