/** The query parameters the resource services accept and how they become
    `URLSearchParams` entries (src/clickup/tasks/tasks.service.ts and the
    `archived` flag of the list and space services). */
module QueryParams {
  import opened Wrappers
  import opened JsValue
  import JsonText
  import FormUrlEncoded

  /** A defined query parameter value as the controllers pass it. */
  datatype Param =
    | PBool(b: bool)
    | PNum(n: int)
    | PStr(s: string)
    | PList(items: seq<Value>)

  /** One own property of a params object; `None` is a property that is
      present with the value `undefined`. */
  datatype Entry = Entry(key: string, value: Option<Param>)

  /** `value.toString()`: an array prints as the comma join of its elements. */
  function ToText(p: Param): string {
    match p
    case PBool(b) => if b then "true" else "false"
    case PNum(n) => DecimalString(n)
    case PStr(s) => s
    case PList(items) => JoinArray(items, Arr(items))
  }

  /** The task-list rule: arrays as `JSON.stringify(value)`, everything else
      through `toString`. */
  function JsonOrText(p: Param): string {
    match p
    case PList(items) => JsonText.Stringify(Arr(items)).value
    case _ => ToText(p)
  }

  /** How one defined value is written: with the array branch of
      `getTasksByListId` when `arraysAsJson`, otherwise with `toString` only. */
  function Render(p: Param, arraysAsJson: bool): string {
    if arraysAsJson then JsonOrText(p) else ToText(p)
  }

  /** The number of entries whose value is defined. */
  function DefinedCount(entries: seq<Entry>): (n: nat)
    ensures n <= |entries|
  {
    if |entries| == 0 then 0
    else (if entries[0].value.Some? then 1 else 0) + DefinedCount(entries[1..])
  }

  /** The `URLSearchParams` entry of a defined property. */
  function EntryPair(e: Entry, arraysAsJson: bool): FormUrlEncoded.Pair
    requires e.value.Some?
  {
    FormUrlEncoded.Pair(e.key, Render(e.value.value, arraysAsJson))
  }

  /** What one property appends: its entry when it is defined, nothing
      when it is `undefined`. */
  function Emit(e: Entry, arraysAsJson: bool): seq<FormUrlEncoded.Pair> {
    if e.value.Some? then [EntryPair(e, arraysAsJson)] else []
  }

  /** The `URLSearchParams` entries appended by the `Object.entries(params)
      .forEach` loop: one per defined value, in property order; `undefined`
      values are skipped. `CollectSound` and `CollectComplete` relate every
      entry to the property it comes from. */
  function Collect(entries: seq<Entry>, arraysAsJson: bool): (r: seq<FormUrlEncoded.Pair>)
    ensures |r| == DefinedCount(entries)
  {
    if |entries| == 0 then []
    else Emit(entries[0], arraysAsJson) + Collect(entries[1..], arraysAsJson)
  }

  /** Property `i` of `entries` is defined and appends `p`. */
  predicate Source(entries: seq<Entry>, i: int, p: FormUrlEncoded.Pair, arraysAsJson: bool) {
    0 <= i < |entries| && entries[i].value.Some? && p == EntryPair(entries[i], arraysAsJson)
  }

  /** The position of the `j`-th defined property. */
  function Origin(entries: seq<Entry>, j: nat): (i: nat)
    requires j < DefinedCount(entries)
    ensures i < |entries| && entries[i].value.Some?
  {
    if entries[0].value.Some? then
      if j == 0 then 0 else 1 + Origin(entries[1..], j - 1)
    else 1 + Origin(entries[1..], j)
  }

  lemma {:induction false} CollectAt(entries: seq<Entry>, arraysAsJson: bool, j: nat)
    requires j < |Collect(entries, arraysAsJson)|
    ensures Source(entries, Origin(entries, j), Collect(entries, arraysAsJson)[j], arraysAsJson)
  {
    var tail := entries[1..];
    var rest := Collect(tail, arraysAsJson);
    var r := Collect(entries, arraysAsJson);
    assert r == Emit(entries[0], arraysAsJson) + rest;
    if entries[0].value.Some? {
      if j > 0 {
        CollectAt(tail, arraysAsJson, j - 1);
        assert r[j] == rest[j - 1];
        assert tail[Origin(tail, j - 1)] == entries[Origin(entries, j)];
      }
    } else {
      CollectAt(tail, arraysAsJson, j);
      assert r[j] == rest[j];
      assert tail[Origin(tail, j)] == entries[Origin(entries, j)];
    }
  }

  /** Every appended entry comes from a defined property, the `j`-th entry
      from the `j`-th defined one, with its name and rendered value. */
  lemma CollectSound(entries: seq<Entry>, arraysAsJson: bool)
    ensures forall j :: 0 <= j < |Collect(entries, arraysAsJson)| ==>
      Source(entries, Origin(entries, j), Collect(entries, arraysAsJson)[j], arraysAsJson)
  {
    forall j | 0 <= j < |Collect(entries, arraysAsJson)|
      ensures Source(entries, Origin(entries, j), Collect(entries, arraysAsJson)[j], arraysAsJson)
    {
      CollectAt(entries, arraysAsJson, j);
    }
  }

  lemma {:induction false} CollectHas(entries: seq<Entry>, arraysAsJson: bool, i: nat)
    requires i < |entries| && entries[i].value.Some?
    ensures EntryPair(entries[i], arraysAsJson) in Collect(entries, arraysAsJson)
  {
    var tail := entries[1..];
    var rest := Collect(tail, arraysAsJson);
    assert Collect(entries, arraysAsJson) == Emit(entries[0], arraysAsJson) + rest;
    if i > 0 {
      assert tail[i - 1] == entries[i];
      CollectHas(tail, arraysAsJson, i - 1);
    }
  }

  /** Every defined property is appended, with its name and rendered value. */
  lemma CollectComplete(entries: seq<Entry>, arraysAsJson: bool)
    ensures forall i :: 0 <= i < |entries| && entries[i].value.Some? ==>
      EntryPair(entries[i], arraysAsJson) in Collect(entries, arraysAsJson)
  {
    forall i | 0 <= i < |entries| && entries[i].value.Some?
      ensures EntryPair(entries[i], arraysAsJson) in Collect(entries, arraysAsJson)
    {
      CollectHas(entries, arraysAsJson, i);
    }
  }

  /** The loop handles the properties one after the other: collecting a
      concatenation is concatenating the collections, so entries keep the
      order of their properties. */
  lemma {:induction false} CollectAppend(a: seq<Entry>, b: seq<Entry>, arraysAsJson: bool)
    ensures Collect(a + b, arraysAsJson) == Collect(a, arraysAsJson) + Collect(b, arraysAsJson)
  {
    if |a| > 0 {
      assert (a + b)[0] == a[0];
      assert (a + b)[1..] == a[1..] + b;
      CollectAppend(a[1..], b, arraysAsJson);
      var e := Emit(a[0], arraysAsJson);
      assert Collect(a + b, arraysAsJson) == e + Collect(a[1..] + b, arraysAsJson);
      assert Collect(a, arraysAsJson) == e + Collect(a[1..], arraysAsJson);
    } else {
      assert a + b == b;
    }
  }

  lemma {:induction false} DefinedCountZero(entries: seq<Entry>)
    ensures DefinedCount(entries) == 0 <==> forall i :: 0 <= i < |entries| ==> entries[i].value.None?
  {
    if |entries| > 0 {
      DefinedCountZero(entries[1..]);
      assert forall i :: 1 <= i < |entries| ==> entries[i] == entries[1..][i - 1];
    }
  }

  /** No entry is appended exactly when every value is `undefined`, and then
      the endpoint gets no `?`. */
  lemma CollectEmptyIff(entries: seq<Entry>, arraysAsJson: bool)
    ensures |Collect(entries, arraysAsJson)| == 0 <==>
      forall i :: 0 <= i < |entries| ==> entries[i].value.None?
  {
    DefinedCountZero(entries);
  }

  /** The `archived` flag of the list and space reads: one `archived=true` or
      `archived=false` entry when it is defined, none otherwise. */
  function ArchivedQuery(archived: Option<bool>): (r: seq<FormUrlEncoded.Pair>)
    ensures archived.None? <==> |r| == 0
    ensures archived.Some? ==>
      (|r| == 1 && r[0].name == "archived"
       && (r[0].value == "true" <==> archived.value)
       && (r[0].value == "false" <==> !archived.value))
  {
    if archived.Some? then [FormUrlEncoded.Pair("archived", ToText(PBool(archived.value)))] else []
  }
}
