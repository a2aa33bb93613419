/** What a pydantic model declaration promises: each field has a declared type,
    an optional default (a field without one is required) and optional integer
    bounds `ge`/`le`; constructing a model from keyword arguments either yields a
    value for every declared field or fails with the fields it rejects. Fields
    are identified by a key type `K`. */
module Schema {
  import opened Wrappers
  import opened Json

  /** The declared Python type of a field. */
  datatype Kind =
    | StrKind                          // str
    | IntKind                          // int
    | BoolKind                         // bool
    | DictKind                         // dict
    | SetKind                          // set
    | EnumKind(members: set<string>)   // an enumeration whose members are strings
    | Optional(inner: Kind)            // `T | None`
  {
    predicate Admits(v: Value) {
      match this
      case StrKind => v.Str?
      case IntKind => v.Int?
      case BoolKind => v.Bool?
      case DictKind => v.Object?
      case SetKind => v.Set?
      case EnumKind(members) => v.Str? && v.s in members
      case Optional(inner) => v.Null? || inner.Admits(v)
    }

    /** The type holds no container: no `dict`, no `set`. */
    predicate Flat() {
      match this
      case DictKind => false
      case SetKind => false
      case Optional(inner) => inner.Flat()
      case _ => true
    }
  }

  /** A value of a flat type is a JSON scalar. */
  lemma {:induction false} FlatAdmitsScalar(kind: Kind, v: Value)
    requires kind.Flat() && kind.Admits(v)
    ensures v.Scalar()
  {
    match kind
    case Optional(inner) =>
      if !v.Null? {
        FlatAdmitsScalar(inner, v);
      }
    case _ =>
  }

  /** One `name: T = Field(default=..., ge=..., le=...)` declaration. */
  datatype FieldSpec = FieldSpec(kind: Kind, default: Option<Value>, ge: Option<int>, le: Option<int>)
  {
    /** `Field()` without a default: the caller must supply the field. */
    predicate Required() {
      default.None?
    }

    predicate Accepts(v: Value) {
      && kind.Admits(v)
      && (v.Int? && ge.Some? ==> v.i >= ge.value)
      && (v.Int? && le.Some? ==> v.i <= le.value)
    }
  }

  /** A `str` field that must be supplied. */
  function RequiredStr(): FieldSpec {
    FieldSpec(StrKind, None, None, None)
  }

  function WithDefault(kind: Kind, default: Value): FieldSpec {
    FieldSpec(kind, Some(default), None, None)
  }

  /** An `int` field with a default and bounds `ge=lo` and, when given, `le=hi`. */
  function BoundedInt(default: int, lo: int, hi: Option<int>): FieldSpec {
    FieldSpec(IntKind, Some(Int(default)), Some(lo), hi)
  }

  /** Field `k`, declared as `spec`, does not stop construction from the
      keyword arguments `kw`: it is supplied with a value the declaration
      accepts, or it is not supplied and has a default. */
  predicate Admissible<K>(spec: FieldSpec, kw: map<K, Value>, k: K) {
    if k in kw then spec.Accepts(kw[k]) else !spec.Required()
  }

  /** The error of a failed construction, naming every field that stopped it. */
  datatype ValidationError<K> = ValidationError(fields: set<K>)
}
