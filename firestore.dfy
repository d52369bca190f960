/** Shared Firestore types: document values, change kinds and the errors the mock throws. */
module Firestore {
  import opened Wrappers

  /** A field value of a document, as a JSON-like tree. */
  datatype Value =
    | Null
    | Bool(b: bool)
    | Num(n: int)
    | Str(s: string)
    | List(items: seq<Value>)
    | Map(fields: map<string, Value>)

  /** The data of a document: a map from field name to value. */
  type Fields = map<string, Value>

  /** JavaScript truthiness: `null`, `false`, `0` and `""` are falsy; arrays and objects never are. */
  predicate Truthy(v: Value) {
    match v
    case Null => false
    case Bool(b) => b
    case Num(n) => n != 0
    case Str(s) => s != ""
    case List(_) => true
    case Map(_) => true
  }

  /** The kind of a document change (`DocumentChangeType`). */
  datatype ChangeType = Added | Modified | Removed

  /** A field path argument: a (possibly dotted) string or a `FieldPath` of segments. */
  datatype FieldRef = Dotted(path: string) | Segments(names: seq<string>)

  /** A document reference as the engines see it: its path, its id and its current data, if any. */
  datatype DocRef = DocRef(path: string, id: string, data: Option<Fields>)

  datatype ValidationReason =
    | NonPositiveLimit      // `limit(n)` with n <= 0
    | StartWithoutOrder     // a start cursor on a query without order rules
    | EndWithoutOrder       // an end cursor on a query without order rules
    | ReadAfterWrite        // a transactional read after a write
    | IllegalPath           // descending through a truthy non-object field
    | UnsupportedFieldPath  // an update field that is neither a string nor a FieldPath

  datatype Error =
    | Validation(reason: ValidationReason)   // MockFirebaseValidationError
    | NotImplementedYet(operation: string)   // a surface the mock does not implement
    | UnexpectedChangeType(name: string)     // an upstream change of unknown type
    | TypeError                              // writing a field of `undefined` data
    | ArrayPathUnmodelled                    // descending into an array (outside this model)
}
