/** The mapping of SQL column types to Rust types (`hartex-database-typedsql`,
    `src/codegen/types.rs`), in an owned form for struct fields and a borrowed form for
    the parameters of generated functions. The emitted token streams are modelled as a
    small tree of Rust types. */
module CodegenTypes {
  import opened Wrappers
  import opened SqlAst

  /** The Rust types the generator emits. */
  datatype RustTy =
    | I64
    | Bool
    | OwnedString         // String
    | StrRef              // &str
    | F32
    | I16
    | I32
    | TimeTime            // time::Time
    | PrimitiveDateTime   // time::PrimitiveDateTime
    | OffsetDateTime      // time::OffsetDateTime
    | VecOf(elem: RustTy) // Vec<T>
    | SliceOf(elem: RustTy) // &[T]
    | TablePath(schema: string, table: string) // crate::tables::<schema>::<table>

  /** The textual SQL types: CHAR, CHARACTER, CHARACTER VARYING, VARCHAR and TEXT. */
  predicate IsTextual(dt: DataType) {
    dt.Char? || dt.Character? || dt.CharacterVarying? || dt.Varchar? || dt.Text?
  }

  /** A time type carries no time zone. */
  predicate WithoutZone(tz: TimezoneInfo) {
    tz == NoTimezone || tz == WithoutTimeZone
  }

  /** Reference definition of the supported SQL types: the scalar types the generator
      knows, TIME only without a time zone, any TIMESTAMP, and `T[]` arrays of a supported
      `T`. */
  predicate Supported(dt: DataType) {
    match dt
    case Array(SquareBracket(inner, _)) => Supported(inner)
    case BigInt(_) => true
    case Boolean => true
    case Real => true
    case SmallInt(_) => true
    case Integer(_) => true
    case Time(_, tz) => WithoutZone(tz)
    case Timestamp(_, _) => true
    case _ => IsTextual(dt)
  }

  /** A Rust type holds no borrow. */
  predicate IsOwned(t: RustTy) {
    match t
    case StrRef => false
    case SliceOf(_) => false
    case VecOf(e) => IsOwned(e)
    case _ => true
  }

  /** `sql_type_to_rust_type_token_stream`. */
  function RustType(dt: DataType): (r: Option<RustTy>)
    ensures r.Some? <==> Supported(dt)
    ensures r.Some? ==> IsOwned(r.value)
  {
    match dt
    case Array(SquareBracket(inner, _)) =>
      (match RustType(inner) case None => None case Some(t) => Some(VecOf(t)))
    case BigInt(_) => Some(I64)
    case Boolean => Some(Bool)
    case Char(_) => Some(OwnedString)
    case Character(_) => Some(OwnedString)
    case CharacterVarying(_) => Some(OwnedString)
    case Varchar(_) => Some(OwnedString)
    case Text => Some(OwnedString)
    case Real => Some(F32)
    case SmallInt(_) => Some(I16)
    case Integer(_) => Some(I32)
    case Time(_, tz) => if WithoutZone(tz) then Some(TimeTime) else None
    case Timestamp(_, tz) => if WithoutZone(tz) then Some(PrimitiveDateTime) else Some(OffsetDateTime)
    case _ => None
  }

  /** `sql_type_to_rust_reftype_token_stream`. */
  function RustRefType(dt: DataType): (r: Option<RustTy>)
    ensures r.Some? <==> RustType(dt).Some?
    ensures IsTextual(dt) ==> r == Some(StrRef) && RustType(dt) == Some(OwnedString)
    ensures !IsTextual(dt) && !dt.Array? ==> r == RustType(dt)
    ensures (dt.Array? && dt.elem.SquareBracket? && RustType(dt.elem.inner).Some?) ==>
      r == Some(SliceOf(RustType(dt.elem.inner).value))
      && RustType(dt) == Some(VecOf(RustType(dt.elem.inner).value))
  {
    match dt
    case Array(SquareBracket(inner, _)) =>
      (match RustType(inner) case None => None case Some(t) => Some(SliceOf(t)))
    case BigInt(_) => Some(I64)
    case Boolean => Some(Bool)
    case Char(_) => Some(StrRef)
    case Character(_) => Some(StrRef)
    case CharacterVarying(_) => Some(StrRef)
    case Varchar(_) => Some(StrRef)
    case Text => Some(StrRef)
    case Real => Some(F32)
    case SmallInt(_) => Some(I16)
    case Integer(_) => Some(I32)
    case Time(_, tz) => if WithoutZone(tz) then Some(TimeTime) else None
    case Timestamp(_, tz) => if WithoutZone(tz) then Some(PrimitiveDateTime) else Some(OffsetDateTime)
    case _ => None
  }

  /** An array of `T` is supported exactly when `T` is, and then it is a `Vec` of `T`'s
      type; arrays of any other bracket style are not supported. */
  lemma ArrayMapping(dt: DataType)
    requires dt.Array?
    ensures dt.elem.SquareBracket? ==>
      (RustType(dt).Some? <==> RustType(dt.elem.inner).Some?)
      && (RustType(dt).Some? ==> RustType(dt) == Some(VecOf(RustType(dt.elem.inner).value)))
    ensures !dt.elem.SquareBracket? ==> RustType(dt).None? && RustRefType(dt).None?
  {
  }

  /** TIME maps to `time::Time` without a time zone and is unsupported with one; TIMESTAMP
      maps to `PrimitiveDateTime` without a time zone and to `OffsetDateTime` with one. */
  lemma TimeMappings(p: Option<nat>, tz: TimezoneInfo)
    ensures RustType(Time(p, tz)) == (if tz == NoTimezone || tz == WithoutTimeZone then Some(TimeTime) else None)
    ensures RustType(Timestamp(p, tz)) ==
      (if tz == WithTimeZone || tz == Tz then Some(OffsetDateTime) else Some(PrimitiveDateTime))
  {
  }

  /** The numeric types map to fixed-width Rust types regardless of their display width. */
  lemma NumericMappings(w: Option<nat>)
    ensures RustType(BigInt(w)) == Some(I64) && RustType(SmallInt(w)) == Some(I16)
    ensures RustType(Integer(w)) == Some(I32) && RustType(Real) == Some(F32)
    ensures RustType(Boolean) == Some(Bool)
  {
  }
}
