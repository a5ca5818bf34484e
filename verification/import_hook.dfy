/**
 * The restore tool's JSON object hook (tools/load-db-from-dump.py:7-15) and
 * the dump tool's identifier encoding it is meant to undo
 * (tools/dump-db-data.py:7-13).
 */
module ImportHook {
  import opened ObjectIds
  import opened Documents

  /** What the hook takes for an identifier: a string of exactly 24 characters from `0123456789abcdef`. */
  predicate LooksLikeId(v: Value) {
    v.Str? && IsCanonical(v.s)
  }

  /** The hook's treatment of one field value: a string that looks like an identifier becomes one. */
  function ConvertValue(v: Value): (w: Value)
    ensures LooksLikeId(v) ==> w.Id? && ToString(w.id) == v.s
    ensures !LooksLikeId(v) ==> w == v
    ensures !LooksLikeId(w)
  {
    if LooksLikeId(v) then Id(ObjectId(v.s)) else v
  }

  /**
   * `json_object_hook(d)`: the same keys; a value changes exactly when it is
   * a string that looks like an identifier, and then it becomes the
   * identifier with that text. Nested values are not visited.
   */
  function ObjectHook(d: Document): (r: Document)
    ensures r.Keys == d.Keys
    ensures forall k :: k in d ==> (r[k] != d[k] <==> LooksLikeId(d[k]))
    ensures forall k :: k in d && LooksLikeId(d[k]) ==> r[k] == Id(ObjectId(d[k].s))
  {
    map k | k in d :: ConvertValue(d[k])
  }

  /** The hook as the tool runs it: one pass over the items, rewriting matching values in place. */
  method ApplyHook(d: Document) returns (r: Document)
    ensures r == ObjectHook(d)
  {
    r := d;
    var pending := d.Keys;
    while pending != {}
      invariant pending <= d.Keys
      invariant r.Keys == d.Keys
      invariant forall k :: k in d && k !in pending ==> r[k] == ConvertValue(d[k])
      invariant forall k :: k in pending ==> r[k] == d[k]
      decreases pending
    {
      var key :| key in pending;
      var value := r[key];
      if value.Str? && |value.s| == IdLength && forall i :: 0 <= i < |value.s| ==> IsLowerHexDigit(value.s[i]) {
        r := r[key := Id(ObjectId(value.s))];
      }
      pending := pending - {key};
    }
  }

  /** Running the hook again changes nothing: what it converted is no longer a string. */
  lemma HookIdempotent(d: Document)
    ensures ObjectHook(ObjectHook(d)) == ObjectHook(d)
  {
  }

  /** The hook is shallow: a list value is kept as it is, identifier-like strings inside it included. */
  lemma HookIsShallow(d: Document, k: string)
    requires k in d && d[k].List?
    ensures ObjectHook(d)[k] == d[k]
  {
  }

  // ---------------------------------------------------------------- export, and import after export

  /** The value holds an identifier, at the top or anywhere inside its lists. */
  predicate ContainsId(v: Value)
    decreases v
  {
    match v
    case Id(_) => true
    case List(items) => exists i :: 0 <= i < |items| && ContainsId(items[i])
    case _ => false
  }

  /** The dump tool's encoder: every identifier, however deep in lists, becomes its text. */
  function ExportValue(v: Value): (w: Value)
    ensures !ContainsId(w)
    ensures v.Id? ==> w == Str(ToString(v.id))
    ensures v.List? ==> w.List? && |w.items| == |v.items|
    ensures !v.Id? && !v.List? ==> w == v
    decreases v
  {
    match v
    case Id(id) => Str(ToString(id))
    case List(items) => List(seq(|items|, i requires 0 <= i < |items| => ExportValue(items[i])))
    case _ => v
  }

  function ExportDocument(d: Document): (e: Document)
    ensures e.Keys == d.Keys
    ensures forall k :: k in d ==> !e[k].Id?
    ensures forall k :: k in d && d[k].Id? ==> e[k] == Str(ToString(d[k].id))
    ensures forall k :: k in d && !ContainsId(d[k]) ==> e[k] == d[k]
  {
    forall k | k in d && !ContainsId(d[k]) ensures ExportValue(d[k]) == d[k] {
      ExportFixesIdFree(d[k]);
    }
    map k | k in d :: ExportValue(d[k])
  }

  /** Export leaves a value alone exactly when it holds no identifier. */
  lemma {:induction false} ExportFixesIdFree(v: Value)
    ensures ExportValue(v) == v <==> !ContainsId(v)
    decreases v
  {
    match v
    case Id(_) =>
    case List(items) =>
      var exported := ExportValue(v).items;
      if ContainsId(v) {
        var i :| 0 <= i < |items| && ContainsId(items[i]);
        ExportFixesIdFree(items[i]);
        assert exported[i] != items[i];
      } else {
        forall i | 0 <= i < |items| ensures exported[i] == items[i] {
          ExportFixesIdFree(items[i]);
        }
        assert exported == items;
      }
    case _ =>
  }

  /** A value comes back from export-then-import unchanged. */
  predicate SurvivesRoundTrip(v: Value) {
    v.Id? || (!ContainsId(v) && !LooksLikeId(v))
  }

  /**
   * Export followed by import restores a field exactly when it is an
   * identifier, or holds none and is not itself an identifier-like string.
   * An ordinary string of 24 lower-case hex digits comes back as an
   * identifier, and identifiers inside lists come back as strings.
   */
  lemma ImportAfterExport(v: Value)
    ensures ConvertValue(ExportValue(v)) == v <==> SurvivesRoundTrip(v)
  {
    ExportFixesIdFree(v);
    if v.List? && ContainsId(v) {
      assert ExportValue(v).List?;
    }
  }

  /** For a whole document: import after export is the identity exactly when every field survives. */
  lemma ImportAfterExportDocument(d: Document)
    ensures ObjectHook(ExportDocument(d)) == d <==> forall k :: k in d ==> SurvivesRoundTrip(d[k])
  {
  }

  /** An ordinary text field that happens to be 24 lower-case hex digits does not survive. */
  lemma HexLookingTextIsConverted()
    ensures var d := map["description" := Str("deadbeefdeadbeefdeadbeef")];
      ObjectHook(ExportDocument(d)) != d
  {
    var d := map["description" := Str("deadbeefdeadbeefdeadbeef")];
    assert LooksLikeId(d["description"]);
    ImportAfterExportDocument(d);
  }

  /** An identifier inside a list is exported as text and, the hook being shallow, stays text. */
  lemma ListedIdComesBackAsText(id: ObjectId)
    ensures var d := map["tags" := List([Id(id)])];
      ObjectHook(ExportDocument(d)) == map["tags" := List([Str(ToString(id))])]
  {
    var d := map["tags" := List([Id(id)])];
    assert ExportValue(d["tags"]) == List([Str(ToString(id))]);
  }
}
