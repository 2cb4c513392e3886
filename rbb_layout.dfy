/**
  Which FieldPath addresses which columns. A path returned by CreateColumn
  keeps addressing a column of the right kind while further columns are
  created (columns are only appended) and while rows are appended
  (UpdateColumn never adds or removes a column), so that every later
  UpdateColumn for a field of the same type finds its columns.

  That last step holds for the corrected UpdateColumn only: the one in
  column.go indexes a struct path's children by field position, while
  CreateColumn records a child path only for the fields that made columns.
*/
module RbbLayout {
  import opened Wrappers
  import opened Rfield
  import opened RbbColumns

  /** A struct all of whose leaves are empty structs: CreateColumn makes no column and no path for it. */
  predicate NoColumns(v: Value)
  {
    v.Struct? && forall i :: 0 <= i < |v.fields| ==> NoColumns(v.fields[i].value)
  }

  /** The same, read off a value's type. */
  predicate NoColumnsType(t: DataType)
  {
    t.TStruct? && forall i :: 0 <= i < |t.fields| ==> NoColumnsType(t.fields[i].dtype)
  }

  /** The scalar column kind that holds values of a type. */
  function TypeKind(t: DataType): Option<ScalarKind>
  {
    match t
    case TBool => Some(KBool)
    case TInt(w) => Some(match w case W8 => KI8 case W16 => KI16 case W32 => KI32 case W64 => KI64)
    case TUint(w) => Some(match w case W8 => KU8 case W16 => KU16 case W32 => KU32 case W64 => KU64)
    case TFloat(fw) => Some(if fw == FW32 then KF32 else KF64)
    case TBinary => Some(KBinary)
    case _ => None
  }

  lemma TypeKindOf(v: Value)
    ensures TypeKind(TypeOf(v)) == ScalarKindOf(v)
  {
  }

  lemma {:induction false} FieldTypesAt(fs: seq<Field>)
    ensures forall i :: 0 <= i < |fs| ==> FieldTypes(fs)[i].dtype == TypeOf(fs[i].value)
    ensures fs != [] ==> FieldTypes(fs)[1..] == FieldTypes(fs[1..])
  {
    if fs != [] {
      FieldTypesAt(fs[1..]);
      assert FieldTypes(fs) == [FieldType(fs[0].name, TypeOf(fs[0].value))] + FieldTypes(fs[1..]);
    }
  }

  /** Whether a field makes columns can be read off its type. */
  lemma {:induction false} NoColumnsTypeOf(v: Value)
    ensures NoColumnsType(TypeOf(v)) <==> NoColumns(v)
  {
    if v.Struct? {
      FieldTypesAt(v.fields);
      forall i | 0 <= i < |v.fields|
        ensures NoColumnsType(FieldTypes(v.fields)[i].dtype) <==> NoColumns(v.fields[i].value)
      {
        NoColumnsTypeOf(v.fields[i].value);
      }
    }
  }

  /**
    `p` addresses a column of `c` holding values of type `t`: a leaf column
    of the type's kind, or a struct column whose paths to children fit the
    struct's fields that make columns, in order.
  */
  predicate Fits(c: Columns, p: FieldPath, t: DataType)
    decreases t
  {
    match t
    case TStr => p.current < |c.strings|
    case TList(_) => p.current < |c.lists|
    case TStruct(fts) => p.current < |c.structs| && FitsChildren(c.structs[p.current].columns, p.children, fts)
    case _ => TypeKind(t).Some? && p.current < |Scalars(c, TypeKind(t).value)|
  }

  predicate FitsChildren(c: Columns, ps: seq<FieldPath>, fts: seq<FieldType>)
    decreases fts
  {
    if fts == [] then true
    else if NoColumnsType(fts[0].dtype) then FitsChildren(c, ps, fts[1..])
    else ps != [] && Fits(c, ps[0], fts[0].dtype) && FitsChildren(c, ps[1..], fts[1..])
  }

  /** `c'` is `c` with columns appended: every list of `c` is a prefix of the same list in `c'`. */
  predicate Grows(c: Columns, c': Columns)
  {
    (forall k :: Scalars(c, k) <= Scalars(c', k)) &&
    c.strings <= c'.strings && c.lists <= c'.lists && c.structs <= c'.structs
  }

  /** `c'` has the same columns as `c`, nested struct columns included; only their data may differ. */
  predicate SameLayout(c: Columns, c': Columns)
    decreases c
  {
    (forall k :: |Scalars(c, k)| == |Scalars(c', k)|) &&
    |c.strings| == |c'.strings| && |c.lists| == |c'.lists| && |c.structs| == |c'.structs| &&
    forall j :: 0 <= j < |c.structs| ==> SameLayout(c.structs[j].columns, c'.structs[j].columns)
  }

  lemma GrowsTrans(a: Columns, b: Columns, c: Columns)
    requires Grows(a, b) && Grows(b, c)
    ensures Grows(a, c)
  {
    forall k
      ensures Scalars(a, k) <= Scalars(c, k)
    {
      assert Scalars(a, k) <= Scalars(b, k) && Scalars(b, k) <= Scalars(c, k);
    }
  }

  lemma GrowsNonEmpty(c: Columns, c': Columns)
    requires Grows(c, c') && !IsEmpty(c)
    ensures !IsEmpty(c')
  {
    forall k
      ensures |Scalars(c, k)| <= |Scalars(c', k)|
    {
      assert Scalars(c, k) <= Scalars(c', k);
    }
    assert |Scalars(c, KI8)| <= |Scalars(c', KI8)| && |Scalars(c, KI16)| <= |Scalars(c', KI16)|;
    assert |Scalars(c, KI32)| <= |Scalars(c', KI32)| && |Scalars(c, KI64)| <= |Scalars(c', KI64)|;
    assert |Scalars(c, KU8)| <= |Scalars(c', KU8)| && |Scalars(c, KU16)| <= |Scalars(c', KU16)|;
    assert |Scalars(c, KU32)| <= |Scalars(c', KU32)| && |Scalars(c, KU64)| <= |Scalars(c', KU64)|;
    assert |Scalars(c, KF32)| <= |Scalars(c', KF32)| && |Scalars(c, KF64)| <= |Scalars(c', KF64)|;
    assert |Scalars(c, KBool)| <= |Scalars(c', KBool)| && |Scalars(c, KBinary)| <= |Scalars(c', KBinary)|;
  }

  /** A path keeps fitting when columns are appended. */
  lemma FitsGrows(c: Columns, c': Columns, p: FieldPath, t: DataType)
    requires Fits(c, p, t) && Grows(c, c')
    ensures Fits(c', p, t)
  {
    if t.TStruct? {
      assert c'.structs[p.current] == c.structs[p.current];
    } else if TypeKind(t).Some? {
      assert Scalars(c, TypeKind(t).value) <= Scalars(c', TypeKind(t).value);
    }
  }

  lemma {:induction false} SameLayoutRefl(c: Columns)
    ensures SameLayout(c, c)
    decreases c
  {
    forall j | 0 <= j < |c.structs|
      ensures SameLayout(c.structs[j].columns, c.structs[j].columns)
    {
      SameLayoutRefl(c.structs[j].columns);
    }
  }

  lemma {:induction false} SameLayoutTrans(a: Columns, b: Columns, c: Columns)
    requires SameLayout(a, b) && SameLayout(b, c)
    ensures SameLayout(a, c)
    decreases a
  {
    forall j | 0 <= j < |a.structs|
      ensures SameLayout(a.structs[j].columns, c.structs[j].columns)
    {
      SameLayoutTrans(a.structs[j].columns, b.structs[j].columns, c.structs[j].columns);
    }
  }

  /** A path keeps fitting while rows are appended. */
  lemma {:induction false} FitsSameLayout(c: Columns, c': Columns, p: FieldPath, t: DataType)
    requires Fits(c, p, t) && SameLayout(c, c')
    ensures Fits(c', p, t)
    decreases t
  {
    if t.TStruct? {
      FitsChildrenSameLayout(c.structs[p.current].columns, c'.structs[p.current].columns, p.children, t.fields);
    } else if TypeKind(t).Some? {
      assert |Scalars(c, TypeKind(t).value)| == |Scalars(c', TypeKind(t).value)|;
    }
  }

  lemma {:induction false} FitsChildrenSameLayout(c: Columns, c': Columns, ps: seq<FieldPath>, fts: seq<FieldType>)
    requires FitsChildren(c, ps, fts) && SameLayout(c, c')
    ensures FitsChildren(c', ps, fts)
    decreases fts
  {
    if fts != [] {
      if NoColumnsType(fts[0].dtype) {
        FitsChildrenSameLayout(c, c', ps, fts[1..]);
      } else {
        FitsSameLayout(c, c', ps[0], fts[0].dtype);
        FitsChildrenSameLayout(c, c', ps[1..], fts[1..]);
      }
    }
  }

  lemma IsEmptyKinds(c: Columns)
    ensures IsEmpty(c) <==> (forall k :: Scalars(c, k) == []) && c.strings == [] && c.lists == [] && c.structs == []
  {
    if (forall k :: Scalars(c, k) == []) {
      assert Scalars(c, KI8) == [] && Scalars(c, KI16) == [] && Scalars(c, KI32) == [] && Scalars(c, KI64) == [];
      assert Scalars(c, KU8) == [] && Scalars(c, KU16) == [] && Scalars(c, KU32) == [] && Scalars(c, KU64) == [];
      assert Scalars(c, KF32) == [] && Scalars(c, KF64) == [] && Scalars(c, KBool) == [] && Scalars(c, KBinary) == [];
    }
  }

  /** CreateColumn only appends columns. */
  lemma CreateGrows(c: Columns, path: seq<int>, f: Field, dictId: nat)
    requires CreateSpec(c, path, f, dictId).Ok?
    ensures Grows(c, CreateSpec(c, path, f, dictId).value.columns)
  {
    if IsLeaf(f.value) && !f.value.Str? && !f.value.List? {
      var k := ScalarKindOf(f.value).value;
      var r := CreateLeaf(c, path, f, dictId).columns;
      forall k' | k' != k
        ensures Scalars(c, k') <= Scalars(r, k')
      {
        assert Scalars(r, k') == Scalars(c, k');
      }
      assert Scalars(c, k) <= Scalars(r, k);
    }
  }

  lemma {:induction false} ChildrenGrows(c: Columns, paths: seq<FieldPath>, fs: seq<Field>, dictId: nat)
    requires CreateChildren(c, paths, fs, dictId).Ok?
    ensures Grows(c, CreateChildren(c, paths, fs, dictId).value.columns)
    ensures paths <= CreateChildren(c, paths, fs, dictId).value.paths
    decreases fs
  {
    if fs == [] {
      assert Grows(c, c);
    } else {
      var cr := CreateSpec(c, [|paths|], fs[0], dictId).value;
      var paths' := if cr.path.Some? then paths + [cr.path.value] else paths;
      CreateGrows(c, [|paths|], fs[0], dictId);
      ChildrenGrows(cr.columns, paths', fs[1..], cr.nextDictId);
      GrowsTrans(c, cr.columns, CreateChildren(c, paths, fs, dictId).value.columns);
    }
  }

  /**
    CreateColumn gives no path exactly for a struct without columns, and then
    changes nothing; a path comes with at least one column.
  */
  lemma {:induction false} CreateNone(c: Columns, path: seq<int>, f: Field, dictId: nat)
    requires CreateSpec(c, path, f, dictId).Ok?
    ensures var cr := CreateSpec(c, path, f, dictId).value;
      (cr.path.None? <==> NoColumns(f.value)) &&
      (cr.path.None? ==> cr.columns == c) &&
      (cr.path.Some? ==> !IsEmpty(cr.columns))
    decreases f
  {
    var cr := CreateSpec(c, path, f, dictId).value;
    if f.value.Struct? {
      var fs := f.value.fields;
      ChildrenNone(EmptyColumns(), [], fs, dictId);
      var cc := CreateChildren(EmptyColumns(), [], fs, dictId).value;
      if IsEmpty(cc.columns) {
        assert forall i :: 0 <= i < |fs| ==> NoColumns(fs[i].value);
      } else {
        assert cr.columns.structs != [];
      }
    } else if !f.value.Str? && !f.value.List? {
      var k := ScalarKindOf(f.value).value;
      IsEmptyKinds(cr.columns);
      assert Scalars(cr.columns, k) != [];
    }
  }

  lemma {:induction false} ChildrenNone(c: Columns, paths: seq<FieldPath>, fs: seq<Field>, dictId: nat)
    requires CreateChildren(c, paths, fs, dictId).Ok?
    ensures var cc := CreateChildren(c, paths, fs, dictId).value;
      ((forall i :: 0 <= i < |fs| ==> NoColumns(fs[i].value)) ==> cc.columns == c && cc.paths == paths) &&
      (!IsEmpty(c) || (exists i :: 0 <= i < |fs| && !NoColumns(fs[i].value)) ==> !IsEmpty(cc.columns))
    decreases fs
  {
    if fs != [] {
      var cr := CreateSpec(c, [|paths|], fs[0], dictId).value;
      var paths' := if cr.path.Some? then paths + [cr.path.value] else paths;
      CreateNone(c, [|paths|], fs[0], dictId);
      ChildrenNone(cr.columns, paths', fs[1..], cr.nextDictId);
      ChildrenNoneStep(fs);
      if !IsEmpty(c) {
        CreateGrows(c, [|paths|], fs[0], dictId);
        GrowsNonEmpty(c, cr.columns);
      }
    }
  }

  /** The bookkeeping of one step of ChildrenNone: a field with columns is the first or among the rest. */
  lemma ChildrenNoneStep(fs: seq<Field>)
    requires fs != []
    ensures (forall i :: 0 <= i < |fs| ==> NoColumns(fs[i].value)) <==>
      NoColumns(fs[0].value) && forall i :: 0 <= i < |fs[1..]| ==> NoColumns(fs[1..][i].value)
    ensures (exists i :: 0 <= i < |fs| && !NoColumns(fs[i].value)) <==>
      !NoColumns(fs[0].value) || exists i :: 0 <= i < |fs[1..]| && !NoColumns(fs[1..][i].value)
  {
    if exists i :: 0 <= i < |fs| && !NoColumns(fs[i].value) {
      var i :| 0 <= i < |fs| && !NoColumns(fs[i].value);
      if i > 0 {
        assert fs[1..][i - 1] == fs[i];
      }
    }
    if exists i :: 0 <= i < |fs[1..]| && !NoColumns(fs[1..][i].value) {
      var i :| 0 <= i < |fs[1..]| && !NoColumns(fs[1..][i].value);
      assert fs[1..][i] == fs[i + 1];
    }
  }

  /** The path CreateColumn gives addresses the columns it created. */
  lemma {:induction false} CreateFits(c: Columns, path: seq<int>, f: Field, dictId: nat)
    requires CreateSpec(c, path, f, dictId).Ok? && CreateSpec(c, path, f, dictId).value.path.Some?
    ensures var cr := CreateSpec(c, path, f, dictId).value;
      Fits(cr.columns, cr.path.value, TypeOf(f.value))
    decreases f
  {
    var cr := CreateSpec(c, path, f, dictId).value;
    if f.value.Struct? {
      var fs := f.value.fields;
      ChildrenFits(EmptyColumns(), [], fs, dictId);
      var cc := CreateChildren(EmptyColumns(), [], fs, dictId).value;
      assert cc.paths[0..] == cc.paths;
      assert cr.columns.structs[|c.structs|].columns == cc.columns;
    } else if !f.value.Str? && !f.value.List? {
      TypeKindOf(f.value);
    }
  }

  lemma {:induction false} ChildrenFits(c: Columns, paths: seq<FieldPath>, fs: seq<Field>, dictId: nat)
    requires CreateChildren(c, paths, fs, dictId).Ok?
    ensures var cc := CreateChildren(c, paths, fs, dictId).value;
      paths <= cc.paths && FitsChildren(cc.columns, cc.paths[|paths|..], FieldTypes(fs))
    decreases fs
  {
    var cc := CreateChildren(c, paths, fs, dictId).value;
    if fs != [] {
      var cr := CreateSpec(c, [|paths|], fs[0], dictId).value;
      var paths' := if cr.path.Some? then paths + [cr.path.value] else paths;
      FieldTypesAt(fs);
      NoColumnsTypeOf(fs[0].value);
      CreateNone(c, [|paths|], fs[0], dictId);
      ChildrenFits(cr.columns, paths', fs[1..], cr.nextDictId);
      if cr.path.Some? {
        CreateFits(c, [|paths|], fs[0], dictId);
        ChildrenGrows(cr.columns, paths', fs[1..], cr.nextDictId);
        FitsGrows(cr.columns, cc.columns, cr.path.value, TypeOf(fs[0].value));
        assert cc.paths[|paths|..][0] == cr.path.value;
        assert cc.paths[|paths|..][1..] == cc.paths[|paths'|..];
      }
    }
  }

  /** Creating further columns keeps every earlier path fitting. */
  lemma CreateKeepsFit(c: Columns, path: seq<int>, f: Field, dictId: nat, p: FieldPath, t: DataType)
    requires Fits(c, p, t) && CreateSpec(c, path, f, dictId).Ok?
    ensures Fits(CreateSpec(c, path, f, dictId).value.columns, p, t)
  {
    CreateGrows(c, path, f, dictId);
    FitsGrows(c, CreateSpec(c, path, f, dictId).value.columns, p, t);
  }

  lemma AppendLeafLayout(c: Columns, cur: nat, v: Value)
    requires IsLeaf(v) && AppendLeaf(c, cur, v).Ok?
    ensures SameLayout(c, AppendLeaf(c, cur, v).value)
  {
    var r := AppendLeaf(c, cur, v).value;
    SameLayoutRefl(c);
    assert r.structs == c.structs;
    if !v.Str? && !v.List? {
      var k := ScalarKindOf(v).value;
      forall k'
        ensures |Scalars(c, k')| == |Scalars(r, k')|
      {
        if k' != k {
          assert Scalars(r, k') == Scalars(c, k');
        }
      }
    }
  }

  lemma StructStepLayout(c: Columns, cur: nat, inner: Columns)
    requires cur < |c.structs| && SameLayout(c.structs[cur].columns, inner)
    ensures SameLayout(c, c.(structs := c.structs[cur := c.structs[cur].(columns := inner)]))
  {
    var c' := c.(structs := c.structs[cur := c.structs[cur].(columns := inner)]);
    forall k
      ensures |Scalars(c, k)| == |Scalars(c', k)|
    {
      assert Scalars(c', k) == Scalars(c, k);
    }
    forall j | 0 <= j < |c.structs|
      ensures SameLayout(c.structs[j].columns, c'.structs[j].columns)
    {
      if j != cur {
        assert c'.structs[j] == c.structs[j];
        SameLayoutRefl(c.structs[j].columns);
      }
    }
  }

  /** UpdateColumn (as written) never adds or removes a column, at any depth. */
  lemma {:induction false} UpdateLayout(c: Columns, fp: FieldPath, f: Field)
    requires UpdateSpec(c, fp, f).Ok?
    ensures SameLayout(c, UpdateSpec(c, fp, f).value)
    decreases f
  {
    if f.value.Struct? {
      UpdateFieldsLayout(c, fp, f.value.fields, 0);
    } else if IsLeaf(f.value) {
      AppendLeafLayout(c, fp.current, f.value);
    }
  }

  lemma {:induction false} UpdateFieldsLayout(c: Columns, fp: FieldPath, fs: seq<Field>, pos: nat)
    requires UpdateFields(c, fp, fs, pos).Ok?
    ensures SameLayout(c, UpdateFields(c, fp, fs, pos).value)
    decreases fs
  {
    if fs == [] {
      SameLayoutRefl(c);
    } else {
      var col := c.structs[fp.current];
      var inner := UpdateSpec(col.columns, fp.children[pos], fs[0]).value;
      var c1 := c.(structs := c.structs[fp.current := col.(columns := inner)]);
      UpdateLayout(col.columns, fp.children[pos], fs[0]);
      StructStepLayout(c, fp.current, inner);
      UpdateFieldsLayout(c1, fp, fs[1..], pos + 1);
      SameLayoutTrans(c, c1, UpdateFields(c, fp, fs, pos).value);
    }
  }

  /**
    UpdateColumn as it was evidently meant: the children of a struct path
    are matched with the struct's fields that make columns, skipping the
    fields (empty structs) that CreateColumn gave no path.
  */
  function UpdateFixed(c: Columns, fp: FieldPath, f: Field): Result<Columns, string>
    decreases f
  {
    match f.value
    case Struct(fs) => UpdateFixedFields(c, fp, fs, 0)
    case Null => Err(Unsupported)
    case _ => AppendLeaf(c, fp.current, f.value)
  }

  /** `child` counts the fields before `fs[0]` that make columns. */
  function UpdateFixedFields(c: Columns, fp: FieldPath, fs: seq<Field>, child: nat): Result<Columns, string>
    decreases fs
  {
    if fs == [] then Ok(c)
    else if NoColumns(fs[0].value) then UpdateFixedFields(c, fp, fs[1..], child)
    else if fp.current >= |c.structs| || child >= |fp.children| then Err(OutOfRange)
    else
      var col := c.structs[fp.current];
      match UpdateFixed(col.columns, fp.children[child], fs[0])
      case Err(e) => Err(e)
      case Ok(inner) => UpdateFixedFields(c.(structs := c.structs[fp.current := col.(columns := inner)]), fp, fs[1..], child + 1)
  }

  /** A row of the path's type always goes in, and no column is added or removed. */
  lemma {:induction false} FixedUpdates(c: Columns, fp: FieldPath, f: Field)
    requires Fits(c, fp, TypeOf(f.value))
    ensures UpdateFixed(c, fp, f).Ok?
    ensures SameLayout(c, UpdateFixed(c, fp, f).value)
    decreases f
  {
    if f.value.Struct? {
      assert fp.children[0..] == fp.children;
      FixedFieldsUpdate(c, fp, f.value.fields, 0);
    } else if IsLeaf(f.value) {
      TypeKindOf(f.value);
      AppendLeafLayout(c, fp.current, f.value);
    }
  }

  lemma {:induction false} FixedFieldsUpdate(c: Columns, fp: FieldPath, fs: seq<Field>, child: nat)
    requires fp.current < |c.structs| && child <= |fp.children|
    requires FitsChildren(c.structs[fp.current].columns, fp.children[child..], FieldTypes(fs))
    ensures UpdateFixedFields(c, fp, fs, child).Ok?
    ensures SameLayout(c, UpdateFixedFields(c, fp, fs, child).value)
    decreases fs
  {
    if fs == [] {
      SameLayoutRefl(c);
    } else {
      FieldTypesAt(fs);
      NoColumnsTypeOf(fs[0].value);
      var col := c.structs[fp.current];
      if NoColumns(fs[0].value) {
        FixedFieldsUpdate(c, fp, fs[1..], child);
      } else {
        assert fp.children[child..][0] == fp.children[child];
        FixedUpdates(col.columns, fp.children[child], fs[0]);
        var inner := UpdateFixed(col.columns, fp.children[child], fs[0]).value;
        var c1 := c.(structs := c.structs[fp.current := col.(columns := inner)]);
        StructStepLayout(c, fp.current, inner);
        assert fp.children[child..][1..] == fp.children[child + 1..];
        FitsChildrenSameLayout(col.columns, inner, fp.children[child + 1..], FieldTypes(fs[1..]));
        FixedFieldsUpdate(c1, fp, fs[1..], child + 1);
        SameLayoutTrans(c, c1, UpdateFixedFields(c, fp, fs, child).value);
      }
    }
  }

  /** With the correction, a fitting path takes row after row of its type. */
  lemma UpdateKeepsFit(c: Columns, p: FieldPath, g: Field)
    requires Fits(c, p, TypeOf(g.value))
    ensures UpdateFixed(c, p, g).Ok? && Fits(UpdateFixed(c, p, g).value, p, TypeOf(g.value))
  {
    FixedUpdates(c, p, g);
    FitsSameLayout(c, UpdateFixed(c, p, g).value, p, TypeOf(g.value));
  }

  /**
    With the correction, the path CreateColumn gives for a field takes the
    next row of any field of the same type, and keeps fitting.
  */
  lemma CreateThenUpdate(c: Columns, path: seq<int>, f: Field, dictId: nat, g: Field)
    requires CreateSpec(c, path, f, dictId).Ok? && CreateSpec(c, path, f, dictId).value.path.Some?
    requires TypeOf(g.value) == TypeOf(f.value)
    ensures var cr := CreateSpec(c, path, f, dictId).value;
      UpdateFixed(cr.columns, cr.path.value, g).Ok? &&
      Fits(UpdateFixed(cr.columns, cr.path.value, g).value, cr.path.value, TypeOf(g.value))
  {
    var cr := CreateSpec(c, path, f, dictId).value;
    CreateFits(c, path, f, dictId);
    UpdateKeepsFit(cr.columns, cr.path.value, g);
  }

  /** A struct whose first field is an empty struct and whose second is an I8. */
  const EmptyFirst := Field("r", Struct([Field("e", Struct([])), Field("x", I8(1))]))

  /**
    UpdateColumn as written fails on the very record its columns were
    created from: the empty struct made no child path, so the I8 field, at
    position 1, looks for a second child path that does not exist.
  */
  lemma UpdateAsWrittenFails()
    ensures CreateSpec(EmptyColumns(), [], EmptyFirst, 0).Ok?
    ensures var cr := CreateSpec(EmptyColumns(), [], EmptyFirst, 0).value;
      cr.path == Some(FieldPath(0, [FieldPath(0, [])])) &&
      UpdateSpec(cr.columns, cr.path.value, EmptyFirst) == Err(OutOfRange) &&
      UpdateFixed(cr.columns, cr.path.value, EmptyFirst).Ok?
  {
    var e := Field("e", Struct([]));
    var x := Field("x", I8(1));
    var fs := [e, x];
    assert EmptyFirst.value.fields == fs && fs[1..] == [x] && [x][1..] == [];
    assert CreateSpec(EmptyColumns(), [0], e, 0) == Ok(Created(EmptyColumns(), None, 0));
    var xcols := WithScalars(EmptyColumns(), KI8, [ScalarColumn("x", [I8(1)])]);
    var xpath := FieldPath(0, []);
    assert Scalars(EmptyColumns(), KI8) + [ScalarColumn("x", [I8(1)])] == [ScalarColumn("x", [I8(1)])];
    assert CreateLeaf(EmptyColumns(), [0], x, 0) == Created(xcols, Some(xpath), 0);
    assert CreateSpec(EmptyColumns(), [0], x, 0) == Ok(Created(xcols, Some(xpath), 0));
    assert CreateChildren(EmptyColumns(), [], fs, 0) == CreateChildren(EmptyColumns(), [], [x], 0);
    assert [] + [xpath] == [xpath];
    assert CreateChildren(EmptyColumns(), [], [x], 0) == CreateChildren(xcols, [xpath], [], 0);
    assert CreateChildren(EmptyColumns(), [], [x], 0) == Ok(CreatedChildren(xcols, [xpath], 0));
    assert !IsEmpty(xcols) by {
      assert |Scalars(xcols, KI8)| == 1;
    }
    var col := StructColumn("r", TypeOf(EmptyFirst.value), xcols);
    var cols := EmptyColumns().(structs := [col]);
    var fp := FieldPath(0, [xpath]);
    assert EmptyColumns().structs + [col] == [col];
    assert CreateSpec(EmptyColumns(), [], EmptyFirst, 0) == Ok(Created(cols, Some(fp), 0));
    assert UpdateSpec(xcols, xpath, e) == Ok(xcols);
    assert cols.(structs := cols.structs[0 := col.(columns := xcols)]) == cols;
    assert UpdateFields(cols, fp, fs, 0) == UpdateFields(cols, fp, [x], 1);
    assert UpdateFixedFields(cols, fp, fs, 0) == UpdateFixedFields(cols, fp, [x], 0);
    assert AppendLeaf(xcols, 0, I8(1)).Ok?;
  }
}
