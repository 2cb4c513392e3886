/**
  The schema id of a record: the comma-joined `name:Type` list of its
  top-level fields, where a struct type is written `{name:Type,...}`, a list
  type `[Type]` with its coerced element type, and a scalar type as a short
  tag (`Bol`, `I8` .. `I64`, `U8` .. `U64`, `F32`, `F64`, `Str`, `Bin`).
  The id is built from the fields' types only, never from their values.
*/
module Schema {
  import opened Wrappers
  import opened Rfield

  /** The short tag of a scalar type; Null (an all-null list) is written `Nul`. */
  function ScalarTag(t: DataType): string
    requires !t.TList? && !t.TStruct?
  {
    match t
    case TNull => "Nul"
    case TBool => "Bol"
    case TInt(w) => "I" + WidthDigits(w)
    case TUint(w) => "U" + WidthDigits(w)
    case TFloat(fw) => if fw == FW32 then "F32" else "F64"
    case TStr => "Str"
    case TBinary => "Bin"
  }

  function WidthDigits(w: Width): string
  {
    match w
    case W8 => "8"
    case W16 => "16"
    case W32 => "32"
    case W64 => "64"
  }

  /** The textual form of a type. */
  function TypeString(t: DataType): string
  {
    match t
    case TList(e) => "[" + TypeString(e) + "]"
    case TStruct(fs) => "{" + FieldsString(fs) + "}"
    case _ => ScalarTag(t)
  }

  /** `name:Type` for every field type, joined by commas. */
  function FieldsString(fs: seq<FieldType>): string
  {
    if fs == [] then ""
    else if |fs| == 1 then FieldString(fs[0])
    else FieldString(fs[0]) + "," + FieldsString(fs[1..])
  }

  function FieldString(f: FieldType): string
  {
    f.name + ":" + TypeString(f.dtype)
  }

  /** Record.SchemaId on the (normalized) top-level fields of a record. */
  function SchemaId(fs: seq<Field>): string
  {
    FieldsString(FieldTypes(fs))
  }
}
