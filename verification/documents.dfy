/**
 * Documents as the store and the JSON layer see them: string-keyed maps of
 * field values, and the equality filters the handlers query with.
 */
module Documents {
  import opened ObjectIds

  /** A field value. `Id` is a store identifier, distinct from its text `Str`. */
  datatype Value =
    | Null
    | Bool(b: bool)
    | Int(i: int)
    | Str(s: string)
    | Id(id: ObjectId)
    | List(items: seq<Value>)

  type Document = map<string, Value>

  /** One filter entry: equality with a value, or membership in a set of values (`$in`). */
  datatype Condition = Eq(value: Value) | AnyOf(values: set<Value>)

  /** A query filter: every entry must hold of the document. */
  type Filter = map<string, Condition>

  predicate Satisfies(v: Value, c: Condition) {
    match c
    case Eq(w) => v == w
    case AnyOf(ws) => v in ws
  }

  /** The document has every filtered field, with a value the filter admits. */
  predicate Matches(d: Document, f: Filter) {
    forall k :: k in f ==> k in d && Satisfies(d[k], f[k])
  }
}
