/**
 * The persistence gateway: the document store as a value. A store maps a
 * collection name to its documents, keyed by their `_id`. The handlers use
 * four operations of it: find one by `_id`, find all matching a filter,
 * insert one, and the atomic increment of one field.
 */
module Gateway {
  import opened Wrappers
  import opened ObjectIds
  import opened Documents
  import opened Errors

  type Collection = map<Value, Document>
  type Store = map<string, Collection>

  const Games := "games"
  const ExperienceLevels := "experience_levels"
  const Tips := "tips"
  const Reports := "reports"

  /** A collection that was never written is empty. */
  function Coll(st: Store, name: string): Collection {
    if name in st then st[name] else map[]
  }

  /** Every document is filed under its own `_id`. */
  predicate WellFormed(st: Store) {
    forall name, key :: name in st && key in st[name] ==> "_id" in st[name][key] && st[name][key]["_id"] == key
  }

  /** `find_one({"_id": key})`: the document with that `_id`, or nothing. */
  function FindById(st: Store, name: string, key: Value): (r: Option<Document>)
    ensures r.Some? <==> key in Coll(st, name)
    ensures r.Some? ==> r.value == Coll(st, name)[key]
    ensures WellFormed(st) && r.Some? ==> "_id" in r.value && r.value["_id"] == key
  {
    if key in Coll(st, name) then Some(Coll(st, name)[key]) else None
  }

  /** `find(filter)`: exactly the stored documents that match every entry of the filter. */
  function Find(st: Store, name: string, f: Filter): (r: Collection)
    ensures forall key :: key in r ==> key in Coll(st, name) && r[key] == Coll(st, name)[key]
    ensures forall key :: key in r ==> Matches(r[key], f)
    ensures forall key :: key in Coll(st, name) && Matches(Coll(st, name)[key], f) ==> key in r
    ensures f == map[] ==> r == Coll(st, name)
  {
    var c := Coll(st, name);
    var r := map key | key in c && Matches(c[key], f) :: c[key];
    assert f == map[] ==> r.Keys == c.Keys;
    r
  }

  /** In a well-formed store, looking up by key is the same as filtering on `_id`. */
  lemma FindByIdIsFilterOnId(st: Store, name: string, key: Value)
    requires WellFormed(st)
    ensures FindById(st, name, key).Some? ==> Find(st, name, map["_id" := Eq(key)]) == map[key := FindById(st, name, key).value]
    ensures FindById(st, name, key).None? ==> Find(st, name, map["_id" := Eq(key)]) == map[]
  {
  }

  datatype Inserted = Inserted(store: Store, insertedId: Value)

  /** The `_id` an insert files a document under: its own, or a freshly generated one. */
  function InsertKey(doc: Document, freshId: ObjectId): Value {
    if "_id" in doc then doc["_id"] else Id(freshId)
  }

  /**
   * `insert_one(doc)`: adds the document under its `_id` (generated when
   * absent) and reports that `_id`; a duplicate `_id` is refused and nothing
   * is written.
   */
  function InsertOne(st: Store, name: string, doc: Document, freshId: ObjectId): (r: Result<Inserted, Error>)
    ensures r.Failure? <==> InsertKey(doc, freshId) in Coll(st, name)
    ensures r.Success? ==> r.value.insertedId == InsertKey(doc, freshId)
    ensures r.Success? ==> r.value.store == st[name := Coll(st, name)[r.value.insertedId := doc["_id" := r.value.insertedId]]]
    ensures r.Success? && WellFormed(st) ==> WellFormed(r.value.store)
  {
    var key := InsertKey(doc, freshId);
    var c := Coll(st, name);
    if key in c then Failure(PersistenceError("E11000 duplicate key error"))
    else Success(Inserted(st[name := c[key := doc["_id" := key]]], key))
  }

  datatype Updated = Updated(store: Store, modifiedCount: nat)

  /**
   * `update_one({"_id": key}, {"$inc": {field: delta}})`: adds `delta` to an
   * integer field (a missing field counts as 0). The modified count is 0 when
   * no document has that `_id` or the document is left as it was; a
   * non-integer field or the `_id` field itself is refused.
   */
  function IncrementOne(st: Store, name: string, key: Value, field: string, delta: int): (r: Result<Updated, Error>)
    ensures key !in Coll(st, name) ==> r == Success(Updated(st, 0))
    ensures r.Success? && r.value.modifiedCount == 0 ==> r.value.store == st
    ensures r.Success? && r.value.modifiedCount != 0 ==>
      && key in Coll(st, name) && field != "_id"
      && var before := Coll(st, name)[key];
         && (field in before ==> before[field].Int?)
         && var n := if field in before then before[field].i else 0;
         r.value.store == st[name := Coll(st, name)[key := before[field := Int(n + delta)]]]
    ensures r.Failure? ==> key in Coll(st, name)
    ensures key in Coll(st, name) && field != "_id" && delta != 0
            && (field !in Coll(st, name)[key] || Coll(st, name)[key][field].Int?)
            ==> r.Success? && r.value.modifiedCount == 1
    ensures r.Success? && WellFormed(st) ==> WellFormed(r.value.store)
  {
    var c := Coll(st, name);
    if key !in c then Success(Updated(st, 0))
    else if field == "_id" then Failure(PersistenceError("the immutable field '_id' cannot be updated"))
    else
      var before := c[key];
      if field in before && !before[field].Int? then
        Failure(PersistenceError("Cannot apply $inc to a value of non-numeric type"))
      else
        var n := if field in before then before[field].i else 0;
        var after := before[field := Int(n + delta)];
        if after == before then Success(Updated(st, 0))
        else Success(Updated(st[name := c[key := after]], 1))
  }
}
