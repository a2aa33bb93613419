/** The Python values that travel through the library: the dictionaries a model
    dumps, the payloads sent to the server and the documents it sends back. */
module Json {

  /** A Python value as the library sees it. `Object` is a `dict`, `Array` a
      `list`; `Set` is a Python `set` whose members are all strings. `job_tags`
      is declared as a plain `set`, which could also hold non-strings; such
      sets are not represented. A set is not a JSON value and must be turned
      into text before sending. */
  datatype Value =
    | Null
    | Bool(b: bool)
    | Int(i: int)
    | Str(s: string)
    | Array(items: seq<Value>)
    | Object(fields: map<string, Value>)
    | Set(elems: set<string>)
  {
    /** A value that JSON can carry without nesting. */
    predicate Scalar() {
      Null? || Bool? || Int? || Str?
    }
  }

  /** A Python `dict` with string keys. */
  type Dict = map<string, Value>
}
