/**
  The columns container of the record batch builder: fifteen per-kind lists
  of columns, a column addressed by its kind and its index in that kind's
  list. CreateColumn registers a field and returns the FieldPath that
  addresses its column (and, for a struct, its children's columns);
  UpdateColumn appends the next row's value at such a path.

  Columns is a Go value type (a StructColumn embeds its Columns by value), so
  it is modelled as a datatype: the operations take a Columns and give back
  the updated one. A value pointer stored in a column (`*int8` into the
  record) is modelled as the value itself.
*/
module RbbColumns {
  import opened Wrappers
  import opened Rfield

  /** The twelve kinds whose columns hold plain slots. */
  datatype ScalarKind = KI8 | KI16 | KI32 | KI64 | KU8 | KU16 | KU32 | KU64 | KF32 | KF64 | KBool | KBinary

  datatype ScalarColumn = ScalarColumn(name: string, data: seq<Value>)

  /**
    A string column. `fieldPath` is the path it was created under, used to
    look up its dictionary configuration; `dictionary` is nil until a
    dictionary is attached (nothing in this file attaches one).
  */
  datatype StringColumn = StringColumn(
    name: string,
    fieldPath: seq<int>,
    dictId: nat,
    dictionary: Option<set<string>>,
    data: seq<string>,
    totalValueLength: nat,
    totalRowCount: nat)

  /** A list column stores each row's list of values whole. */
  datatype ListColumn = ListColumn(name: string, dtype: DataType, data: seq<seq<Value>>)

  datatype StructColumn = StructColumn(name: string, dtype: DataType, columns: Columns)

  datatype Columns = Columns(
    bools: seq<ScalarColumn>,
    i8s: seq<ScalarColumn>, i16s: seq<ScalarColumn>, i32s: seq<ScalarColumn>, i64s: seq<ScalarColumn>,
    u8s: seq<ScalarColumn>, u16s: seq<ScalarColumn>, u32s: seq<ScalarColumn>, u64s: seq<ScalarColumn>,
    f32s: seq<ScalarColumn>, f64s: seq<ScalarColumn>,
    strings: seq<StringColumn>,
    binaries: seq<ScalarColumn>,
    lists: seq<ListColumn>,
    structs: seq<StructColumn>)

  /** A column's address: its index in its kind's list, and for a struct the paths of its children. */
  datatype FieldPath = FieldPath(current: nat, children: seq<FieldPath>)

  /** The zero value `Columns{}`. */
  function EmptyColumns(): Columns
  {
    Columns([], [], [], [], [], [], [], [], [], [], [], [], [], [], [])
  }

  /** The kind of a value stored in a scalar column; None for String, List, Struct and Null. */
  function ScalarKindOf(v: Value): Option<ScalarKind>
  {
    match v
    case Bool(_) => Some(KBool)
    case I8(_) => Some(KI8)
    case I16(_) => Some(KI16)
    case I32(_) => Some(KI32)
    case I64(_) => Some(KI64)
    case U8(_) => Some(KU8)
    case U16(_) => Some(KU16)
    case U32(_) => Some(KU32)
    case U64(_) => Some(KU64)
    case F32(_) => Some(KF32)
    case F64(_) => Some(KF64)
    case Binary(_) => Some(KBinary)
    case _ => None
  }

  /** The list of columns of a scalar kind. */
  function Scalars(c: Columns, k: ScalarKind): seq<ScalarColumn>
  {
    match k
    case KBool => c.bools
    case KI8 => c.i8s
    case KI16 => c.i16s
    case KI32 => c.i32s
    case KI64 => c.i64s
    case KU8 => c.u8s
    case KU16 => c.u16s
    case KU32 => c.u32s
    case KU64 => c.u64s
    case KF32 => c.f32s
    case KF64 => c.f64s
    case KBinary => c.binaries
  }

  /** Replaces the list of columns of one scalar kind. */
  function WithScalars(c: Columns, k: ScalarKind, l: seq<ScalarColumn>): (r: Columns)
    ensures Scalars(r, k) == l
    ensures forall k' :: k' != k ==> Scalars(r, k') == Scalars(c, k')
    ensures r.strings == c.strings && r.lists == c.lists && r.structs == c.structs
  {
    match k
    case KBool => c.(bools := l)
    case KI8 => c.(i8s := l)
    case KI16 => c.(i16s := l)
    case KI32 => c.(i32s := l)
    case KI64 => c.(i64s := l)
    case KU8 => c.(u8s := l)
    case KU16 => c.(u16s := l)
    case KU32 => c.(u32s := l)
    case KU64 => c.(u64s := l)
    case KF32 => c.(f32s := l)
    case KF64 => c.(f64s := l)
    case KBinary => c.(binaries := l)
  }

  /** IsEmpty: no column of any of the fifteen kinds. */
  predicate IsEmpty(c: Columns)
  {
    |c.i8s| == 0 && |c.i16s| == 0 && |c.i32s| == 0 && |c.i64s| == 0 &&
    |c.u8s| == 0 && |c.u16s| == 0 && |c.u32s| == 0 && |c.u64s| == 0 &&
    |c.f32s| == 0 && |c.f64s| == 0 && |c.bools| == 0 && |c.strings| == 0 &&
    |c.binaries| == 0 && |c.lists| == 0 && |c.structs| == 0
  }

  /** What CreateColumn produced: the columns, the path (None for a struct without columns) and the next dictionary id. */
  datatype Created = Created(columns: Columns, path: Option<FieldPath>, nextDictId: nat)

  const Unsupported := "unsupported field type"
  const OutOfRange := "index out of range"

  /** A value whose column is a single slot list, a string column or a list column. */
  predicate IsLeaf(v: Value)
  {
    !v.Struct? && !v.Null?
  }

  /**
    CreateColumn for a leaf value: one column holding the value is appended
    to its kind's list, and the path is that column's index; a string column
    also takes the next dictionary id.
  */
  function CreateLeaf(c: Columns, path: seq<int>, f: Field, dictId: nat): Created
    requires IsLeaf(f.value)
  {
    if f.value.Str? then
      var col := StringColumn(f.name, path, dictId, None, [f.value.s], 0, 0);
      Created(c.(strings := c.strings + [col]), Some(FieldPath(|c.strings|, [])), dictId + 1)
    else if f.value.List? then
      var col := ListColumn(f.name, TypeOf(f.value), [f.value.values]);
      Created(c.(lists := c.lists + [col]), Some(FieldPath(|c.lists|, [])), dictId)
    else
      var k := ScalarKindOf(f.value).value;
      var col := ScalarColumn(f.name, [f.value]);
      Created(WithScalars(c, k, Scalars(c, k) + [col]), Some(FieldPath(|Scalars(c, k)|, [])), dictId)
  }

  /**
    CreateColumn. A struct field creates its children in a fresh Columns,
    each child under the path `[number of child paths so far]`; if that
    leaves the fresh Columns empty there is no column and no path, otherwise
    one struct column is appended with a path whose children are the
    children's non-nil paths. A Null value is a fatal error.
  */
  function CreateSpec(c: Columns, path: seq<int>, f: Field, dictId: nat): Result<Created, string>
    decreases f
  {
    match f.value
    case Struct(fs) =>
      (match CreateChildren(EmptyColumns(), [], fs, dictId)
       case Err(e) => Err(e)
       case Ok(cr) =>
         if IsEmpty(cr.columns) then Ok(Created(c, None, cr.nextDictId))
         else
           var col := StructColumn(f.name, TypeOf(f.value), cr.columns);
           Ok(Created(c.(structs := c.structs + [col]), Some(FieldPath(|c.structs|, cr.paths)), cr.nextDictId)))
    case Null => Err(Unsupported)
    case _ => Ok(CreateLeaf(c, path, f, dictId))
  }

  datatype CreatedChildren = CreatedChildren(columns: Columns, paths: seq<FieldPath>, nextDictId: nat)

  /** The loop over a struct's fields in CreateColumn, over the fields `fs` not yet created. */
  function CreateChildren(c: Columns, paths: seq<FieldPath>, fs: seq<Field>, dictId: nat): Result<CreatedChildren, string>
    decreases fs
  {
    if fs == [] then Ok(CreatedChildren(c, paths, dictId))
    else
      match CreateSpec(c, [|paths|], fs[0], dictId)
      case Err(e) => Err(e)
      case Ok(cr) =>
        var paths' := if cr.path.Some? then paths + [cr.path.value] else paths;
        CreateChildren(cr.columns, paths', fs[1..], cr.nextDictId)
  }

  /**
    UpdateColumn for a leaf value: the value is appended to the data of the
    column at index `cur` of its kind's list; an index outside the list is
    the runtime's index-out-of-range panic.
  */
  function AppendLeaf(c: Columns, cur: nat, v: Value): Result<Columns, string>
    requires IsLeaf(v)
  {
    if v.Str? then
      if cur < |c.strings| then
        Ok(c.(strings := c.strings[cur := c.strings[cur].(data := c.strings[cur].data + [v.s])]))
      else Err(OutOfRange)
    else if v.List? then
      if cur < |c.lists| then
        Ok(c.(lists := c.lists[cur := c.lists[cur].(data := c.lists[cur].data + [v.values])]))
      else Err(OutOfRange)
    else
      var k := ScalarKindOf(v).value;
      var l := Scalars(c, k);
      if cur < |l| then Ok(WithScalars(c, k, l[cur := l[cur].(data := l[cur].data + [v])]))
      else Err(OutOfRange)
  }

  /**
    UpdateColumn as written: a struct value updates, for the field at
    position i, the struct column's Columns at `fieldPath.Children[i]`.
  */
  function UpdateSpec(c: Columns, fp: FieldPath, f: Field): Result<Columns, string>
    decreases f
  {
    match f.value
    case Struct(fs) => UpdateFields(c, fp, fs, 0)
    case Null => Err(Unsupported)
    case _ => AppendLeaf(c, fp.current, f.value)
  }

  /** The loop over a struct's fields in UpdateColumn; `pos` is the position of `fs[0]` in the struct. */
  function UpdateFields(c: Columns, fp: FieldPath, fs: seq<Field>, pos: nat): Result<Columns, string>
    decreases fs
  {
    if fs == [] then Ok(c)
    else if fp.current >= |c.structs| || pos >= |fp.children| then Err(OutOfRange)
    else
      var col := c.structs[fp.current];
      match UpdateSpec(col.columns, fp.children[pos], fs[0])
      case Err(e) => Err(e)
      case Ok(inner) => UpdateFields(c.(structs := c.structs[fp.current := col.(columns := inner)]), fp, fs[1..], pos + 1)
  }

  /**
    CreateColumn: creates the columns of a field, looping over a struct's
    fields, and gives what CreateSpec specifies.
  */
  method CreateColumn(c: Columns, path: seq<int>, f: Field, dictId: nat) returns (r: Result<Created, string>)
    ensures r == CreateSpec(c, path, f, dictId)
    decreases f
  {
    if f.value.Null? {
      return Err(Unsupported);
    }
    if !f.value.Struct? {
      return Ok(CreateLeaf(c, path, f, dictId));
    }
    var fs := f.value.fields;
    var columns := EmptyColumns();
    var paths: seq<FieldPath> := [];
    var id := dictId;
    var k := 0;
    while k < |fs|
      invariant 0 <= k <= |fs|
      invariant CreateChildren(EmptyColumns(), [], fs, dictId) == CreateChildren(columns, paths, fs[k..], id)
    {
      assert fs[k..][0] == fs[k] && fs[k..][1..] == fs[k + 1..];
      var child := CreateColumn(columns, [|paths|], fs[k], id);
      match child {
        case Err(e) =>
          return Err(e);
        case Ok(cr) =>
          columns := cr.columns;
          if cr.path.Some? {
            paths := paths + [cr.path.value];
          }
          id := cr.nextDictId;
      }
      k := k + 1;
    }
    assert fs[k..] == [];
    if IsEmpty(columns) {
      return Ok(Created(c, None, id));
    }
    var col := StructColumn(f.name, TypeOf(f.value), columns);
    return Ok(Created(c.(structs := c.structs + [col]), Some(FieldPath(|c.structs|, paths)), id));
  }

  /**
    UpdateColumn: appends a field's value at a path, looping over a struct's
    fields, and gives what UpdateSpec specifies.
  */
  method UpdateColumn(c: Columns, fp: FieldPath, f: Field) returns (r: Result<Columns, string>)
    ensures r == UpdateSpec(c, fp, f)
    decreases f
  {
    if f.value.Null? {
      return Err(Unsupported);
    }
    if !f.value.Struct? {
      return AppendLeaf(c, fp.current, f.value);
    }
    var fs := f.value.fields;
    var cur := c;
    var pos := 0;
    while pos < |fs|
      invariant 0 <= pos <= |fs|
      invariant UpdateFields(c, fp, fs, 0) == UpdateFields(cur, fp, fs[pos..], pos)
    {
      assert fs[pos..][0] == fs[pos] && fs[pos..][1..] == fs[pos + 1..];
      if fp.current >= |cur.structs| || pos >= |fp.children| {
        return Err(OutOfRange);
      }
      var col := cur.structs[fp.current];
      var inner := UpdateColumn(col.columns, fp.children[pos], fs[pos]);
      match inner {
        case Err(e) =>
          return Err(e);
        case Ok(cols) =>
          cur := cur.(structs := cur.structs[fp.current := col.(columns := cols)]);
      }
      pos := pos + 1;
    }
    assert fs[pos..] == [];
    return Ok(cur);
  }

  /**
    CreateColumn on a scalar field appends exactly one column, holding the
    single value, to the list of the field's kind; the path is the index of
    that new column, and nothing else changes.
  */
  lemma CreateScalar(c: Columns, path: seq<int>, f: Field, dictId: nat, k: ScalarKind)
    requires ScalarKindOf(f.value) == Some(k)
    ensures CreateSpec(c, path, f, dictId).Ok?
    ensures var cr := CreateSpec(c, path, f, dictId).value;
      Scalars(cr.columns, k) == Scalars(c, k) + [ScalarColumn(f.name, [f.value])] &&
      cr.path == Some(FieldPath(|Scalars(cr.columns, k)| - 1, [])) &&
      (forall k' :: k' != k ==> Scalars(cr.columns, k') == Scalars(c, k')) &&
      cr.columns.strings == c.strings && cr.columns.lists == c.lists && cr.columns.structs == c.structs &&
      cr.nextDictId == dictId
  {
  }

  /**
    CreateColumn on a string field appends one string column holding the
    value, with no dictionary, zero totals, the field's path and the next
    dictionary id, which the generator then moves past.
  */
  lemma CreateString(c: Columns, path: seq<int>, f: Field, dictId: nat)
    requires f.value.Str?
    ensures CreateSpec(c, path, f, dictId).Ok?
    ensures var cr := CreateSpec(c, path, f, dictId).value;
      cr.columns.strings == c.strings + [StringColumn(f.name, path, dictId, None, [f.value.s], 0, 0)] &&
      cr.path == Some(FieldPath(|c.strings|, [])) &&
      cr.nextDictId == dictId + 1 &&
      (forall k :: Scalars(cr.columns, k) == Scalars(c, k)) &&
      cr.columns.lists == c.lists && cr.columns.structs == c.structs
  {
  }

  /** A Null value is unsupported by both CreateColumn and UpdateColumn. */
  lemma NullUnsupported(c: Columns, path: seq<int>, fp: FieldPath, f: Field, dictId: nat)
    requires f.value.Null?
    ensures CreateSpec(c, path, f, dictId) == Err(Unsupported)
    ensures UpdateSpec(c, fp, f) == Err(Unsupported)
  {
  }

  /**
    UpdateColumn on a scalar value appends exactly one slot, the value, to
    the column at the path's index in the value's kind list; every other
    column is unchanged. An index outside the list is an error.
  */
  lemma UpdateScalar(c: Columns, fp: FieldPath, f: Field, k: ScalarKind)
    requires ScalarKindOf(f.value) == Some(k)
    ensures fp.current < |Scalars(c, k)| <==> UpdateSpec(c, fp, f).Ok?
    ensures UpdateSpec(c, fp, f).Err? ==> UpdateSpec(c, fp, f).error == OutOfRange
    ensures UpdateSpec(c, fp, f).Ok? ==>
      var r := UpdateSpec(c, fp, f).value;
      |Scalars(r, k)| == |Scalars(c, k)| &&
      Scalars(r, k)[fp.current].name == Scalars(c, k)[fp.current].name &&
      Scalars(r, k)[fp.current].data == Scalars(c, k)[fp.current].data + [f.value] &&
      (forall i :: 0 <= i < |Scalars(c, k)| && i != fp.current ==> Scalars(r, k)[i] == Scalars(c, k)[i]) &&
      (forall k' :: k' != k ==> Scalars(r, k') == Scalars(c, k')) &&
      r.strings == c.strings && r.lists == c.lists && r.structs == c.structs
  {
  }

  /** UpdateColumn on a string value appends it to the string column at the path's index. */
  lemma UpdateString(c: Columns, fp: FieldPath, f: Field)
    requires f.value.Str?
    ensures fp.current < |c.strings| <==> UpdateSpec(c, fp, f).Ok?
    ensures UpdateSpec(c, fp, f).Ok? ==>
      var r := UpdateSpec(c, fp, f).value;
      |r.strings| == |c.strings| &&
      r.strings[fp.current] == c.strings[fp.current].(data := c.strings[fp.current].data + [f.value.s]) &&
      (forall i :: 0 <= i < |c.strings| && i != fp.current ==> r.strings[i] == c.strings[i]) &&
      (forall k :: Scalars(r, k) == Scalars(c, k)) && r.lists == c.lists && r.structs == c.structs
  {
  }

  /**
    UpdateColumn on a struct value updates the struct column at the path's
    index once per field, the i-th field at `fieldPath.Children[i]`; a struct
    without fields changes nothing, whatever the path.
  */
  lemma UpdateStructStep(c: Columns, fp: FieldPath, fs: seq<Field>, pos: nat)
    requires fs != [] && fp.current < |c.structs| && pos < |fp.children|
    ensures UpdateSpec(c.structs[fp.current].columns, fp.children[pos], fs[0]).Err? ==>
      UpdateFields(c, fp, fs, pos) == Err(UpdateSpec(c.structs[fp.current].columns, fp.children[pos], fs[0]).error)
    ensures UpdateSpec(c.structs[fp.current].columns, fp.children[pos], fs[0]).Ok? ==>
      var col := c.structs[fp.current];
      var inner := UpdateSpec(col.columns, fp.children[pos], fs[0]).value;
      UpdateFields(c, fp, fs, pos) == UpdateFields(c.(structs := c.structs[fp.current := col.(columns := inner)]), fp, fs[1..], pos + 1)
  {
  }

  lemma UpdateEmptyStruct(c: Columns, fp: FieldPath, f: Field)
    requires f.value == Struct([])
    ensures UpdateSpec(c, fp, f) == Ok(c)
  {
  }
}
