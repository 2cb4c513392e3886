/**
  The dynamically typed field values of a record (the `rfield` value model,
  shared by the older `rbb/value` package), their type tags and the pairwise
  type coercion that merges two tags into a common one.
*/
module Rfield {
  import opened Wrappers
  import opened StrOrder

  type Int8 = x: int | -0x80 <= x < 0x80
  type Int16 = x: int | -0x8000 <= x < 0x8000
  type Int32 = x: int | -0x8000_0000 <= x < 0x8000_0000
  type Int64 = x: int | -0x8000_0000_0000_0000 <= x < 0x8000_0000_0000_0000
  type Uint8 = x: int | 0 <= x < 0x100
  type Uint16 = x: int | 0 <= x < 0x1_0000
  type Uint32 = x: int | 0 <= x < 0x1_0000_0000
  type Uint64 = x: int | 0 <= x < 0x1_0000_0000_0000_0000

  /** A field value. Float payloads are kept as exact reals. */
  datatype Value =
    | Null
    | Bool(b: bool)
    | I8(i8: Int8)
    | I16(i16: Int16)
    | I32(i32: Int32)
    | I64(i64: Int64)
    | U8(u8: Uint8)
    | U16(u16: Uint16)
    | U32(u32: Uint32)
    | U64(u64: Uint64)
    | F32(f32: real)
    | F64(f64: real)
    | Str(s: string)
    | Binary(bytes: seq<Uint8>)
    | List(values: seq<Value>)
    | Struct(fields: seq<Field>)

  /** A named value; a struct is an ordered sequence of fields. */
  datatype Field = Field(name: string, value: Value)

  /** Integer and float widths. */
  datatype Width = W8 | W16 | W32 | W64
  datatype FloatWidth = FW32 | FW64

  function Bits(w: Width): nat
  {
    match w
    case W8 => 8
    case W16 => 16
    case W32 => 32
    case W64 => 64
  }

  function Wider(a: Width, b: Width): (r: Width)
    ensures r == a || r == b
    ensures Bits(r) >= Bits(a) && Bits(r) >= Bits(b)
  {
    if Bits(a) >= Bits(b) then a else b
  }

  function WiderFloat(a: FloatWidth, b: FloatWidth): FloatWidth
  {
    if a == FW64 || b == FW64 then FW64 else FW32
  }

  /** The type tag of a value (the Arrow data type in the source). */
  datatype DataType =
    | TNull
    | TBool
    | TInt(w: Width)
    | TUint(w: Width)
    | TFloat(fw: FloatWidth)
    | TStr
    | TBinary
    | TList(elem: DataType)
    | TStruct(fields: seq<FieldType>)

  datatype FieldType = FieldType(name: string, dtype: DataType)

  /** Join of two scalar tags that are different, non-null and not both lists or both structs. */
  function CoerceScalar(a: DataType, b: DataType): DataType
  {
    if a.TInt? && b.TInt? then TInt(Wider(a.w, b.w))
    else if a.TUint? && b.TUint? then TUint(Wider(a.w, b.w))
    else if a.TFloat? && b.TFloat? then TFloat(WiderFloat(a.fw, b.fw))
    else if a.TBool? && (b.TInt? || b.TUint?) then b
    else if b.TBool? && (a.TInt? || a.TUint?) then a
    else TStr
  }

  /**
    CoerceDataTypes: the common type of two type tags. Identical tags give
    themselves, Null gives the other tag, two widths of one signedness give the
    wider one, Bool joins an integer type, two lists coerce their element
    types, two structs take the union of their fields (coercing the types of
    fields present in both), and every other mix falls back to String.
  */
  function Coerce(a: DataType, b: DataType): DataType
  {
    if a == b then a
    else if a == TNull then b
    else if b == TNull then a
    else if a.TList? && b.TList? then TList(Coerce(a.elem, b.elem))
    else if a.TStruct? && b.TStruct? then TStruct(MergeFieldTypes(a.fields, b.fields))
    else CoerceScalar(a, b)
  }

  /** Union of two name-sorted field type lists; a name in both gets the coerced type. */
  function MergeFieldTypes(fs: seq<FieldType>, gs: seq<FieldType>): seq<FieldType>
  {
    if fs == [] then gs
    else if gs == [] then fs
    else if fs[0].name == gs[0].name then
      [FieldType(fs[0].name, Coerce(fs[0].dtype, gs[0].dtype))] + MergeFieldTypes(fs[1..], gs[1..])
    else if Less(fs[0].name, gs[0].name) then
      [fs[0]] + MergeFieldTypes(fs[1..], gs)
    else
      [gs[0]] + MergeFieldTypes(fs, gs[1..])
  }

  /** DataType of a value; a list's element type is the coercion fold of its elements' types. */
  function TypeOf(v: Value): DataType
  {
    match v
    case Null => TNull
    case Bool(_) => TBool
    case I8(_) => TInt(W8)
    case I16(_) => TInt(W16)
    case I32(_) => TInt(W32)
    case I64(_) => TInt(W64)
    case U8(_) => TUint(W8)
    case U16(_) => TUint(W16)
    case U32(_) => TUint(W32)
    case U64(_) => TUint(W64)
    case F32(_) => TFloat(FW32)
    case F64(_) => TFloat(FW64)
    case Str(_) => TStr
    case Binary(_) => TBinary
    case List(vs) => TList(ElemType(vs))
    case Struct(fs) => TStruct(FieldTypes(fs))
  }

  /** Left fold of Coerce over the element types, starting from Null. */
  function ElemType(vs: seq<Value>): DataType
  {
    if vs == [] then TNull
    else Coerce(ElemType(vs[..|vs| - 1]), TypeOf(vs[|vs| - 1]))
  }

  function FieldTypes(fs: seq<Field>): (r: seq<FieldType>)
    ensures |r| == |fs|
    ensures forall i :: 0 <= i < |fs| ==> r[i].name == fs[i].name
  {
    if fs == [] then []
    else [FieldType(fs[0].name, TypeOf(fs[0].value))] + FieldTypes(fs[1..])
  }

  /** Signed width bounds. */
  predicate InSignedRange(w: Width, x: int)
  {
    match w
    case W8 => -0x80 <= x < 0x80
    case W16 => -0x8000 <= x < 0x8000
    case W32 => -0x8000_0000 <= x < 0x8000_0000
    case W64 => -0x8000_0000_0000_0000 <= x < 0x8000_0000_0000_0000
  }

  /** Unsigned width bounds. */
  predicate InUnsignedRange(w: Width, x: int)
  {
    match w
    case W8 => 0 <= x < 0x100
    case W16 => 0 <= x < 0x1_0000
    case W32 => 0 <= x < 0x1_0000_0000
    case W64 => 0 <= x < 0x1_0000_0000_0000_0000
  }

  /** The integer a Bool or integer value stands for when it is stored in an integer column. */
  function IntegerOf(v: Value): int
  {
    match v
    case Bool(b) => if b then 1 else 0
    case I8(x) => x
    case I16(x) => x
    case I32(x) => x
    case I64(x) => x
    case U8(x) => x
    case U16(x) => x
    case U32(x) => x
    case U64(x) => x
    case _ => 0
  }

  /**
    AsI8 .. AsI64 (signed) and AsU8 .. AsU64 (unsigned): converts a value to
    a slot of an integer column. None is a conversion error; Some(None) is a
    nil slot (a Null value); Some(Some(x)) the stored integer.
  */
  function AsInteger(v: Value, signed: bool, w: Width): Option<Option<int>>
  {
    var target := if signed then TInt(w) else TUint(w);
    if v.Null? then Some(None)
    else if Coerce(TypeOf(v), target) == target then Some(Some(IntegerOf(v)))
    else None
  }
}
