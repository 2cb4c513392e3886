/**
  The read-only views of the columns container: Metadata, a tree of (name,
  type, length) per column in a fixed kind order, and DictionaryStats, one
  entry per string column (nil while the column has no dictionary), struct
  columns contributing their children's entries.
*/
module RbbStats {
  import opened Wrappers
  import opened Rfield
  import opened RbbColumns
  import opened RbbLayout

  datatype ColumnMetadata = ColumnMetadata(name: string, dtype: DataType, len: nat, children: seq<ColumnMetadata>)

  /** The Arrow type of each scalar column kind. */
  function KindType(k: ScalarKind): DataType
  {
    match k
    case KI8 => TInt(W8)
    case KI16 => TInt(W16)
    case KI32 => TInt(W32)
    case KI64 => TInt(W64)
    case KU8 => TUint(W8)
    case KU16 => TUint(W16)
    case KU32 => TUint(W32)
    case KU64 => TUint(W64)
    case KF32 => TFloat(FW32)
    case KF64 => TFloat(FW64)
    case KBool => TBool
    case KBinary => TBinary
  }

  function ScalarMeta(cols: seq<ScalarColumn>, k: ScalarKind): seq<ColumnMetadata>
  {
    seq(|cols|, i requires 0 <= i < |cols| => ColumnMetadata(cols[i].name, KindType(k), |cols[i].data|, []))
  }

  function StringMeta(cols: seq<StringColumn>): seq<ColumnMetadata>
  {
    seq(|cols|, i requires 0 <= i < |cols| => ColumnMetadata(cols[i].name, TStr, |cols[i].data|, []))
  }

  function ListMeta(cols: seq<ListColumn>): seq<ColumnMetadata>
  {
    seq(|cols|, i requires 0 <= i < |cols| => ColumnMetadata(cols[i].name, cols[i].dtype, |cols[i].data|, []))
  }

  /** The scalar kinds whose entries come before the string columns' entries, in order. */
  const MetaKinds := [KI8, KI16, KI32, KI64, KU8, KU16, KU32, KU64, KF32, KF64, KBool]

  /** The entries of the columns of the kinds `ks`, kind after kind. */
  function KindsMeta(c: Columns, ks: seq<ScalarKind>): seq<ColumnMetadata>
  {
    if ks == [] then []
    else KindsMeta(c, ks[..|ks| - 1]) + ScalarMeta(Scalars(c, ks[|ks| - 1]), ks[|ks| - 1])
  }

  /**
    Columns.Metadata: one entry per column, the kinds in the order I8, I16,
    I32, I64, U8, U16, U32, U64, F32, F64, Bool, String, Binary, List,
    Struct; a leaf entry has its column's length, a struct entry length 0
    and its own columns' metadata as children.
  */
  function MetadataSpec(c: Columns): seq<ColumnMetadata>
  {
    KindsMeta(c, MetaKinds) + StringMeta(c.strings) + ScalarMeta(c.binaries, KBinary) + ListMeta(c.lists) + StructMeta(c.structs)
  }

  function StructMeta(ss: seq<StructColumn>): seq<ColumnMetadata>
  {
    if ss == [] then []
    else
      StructMeta(ss[..|ss| - 1]) + [ColumnMetadata(ss[|ss| - 1].name, ss[|ss| - 1].dtype, 0, MetadataSpec(ss[|ss| - 1].columns))]
  }

  /** Appends the entries of one scalar kind's columns, in order. */
  method AppendScalarMeta(m: seq<ColumnMetadata>, cols: seq<ScalarColumn>, k: ScalarKind) returns (m': seq<ColumnMetadata>)
    ensures m' == m + ScalarMeta(cols, k)
  {
    m' := m;
    for i := 0 to |cols|
      invariant m' == m + ScalarMeta(cols[..i], k)
    {
      var entry := ColumnMetadata(cols[i].name, KindType(k), |cols[i].data|, []);
      assert ScalarMeta(cols[..i + 1], k) == ScalarMeta(cols[..i], k) + [entry];
      m' := m' + [entry];
    }
    assert cols[..|cols|] == cols;
  }

  method AppendStringMeta(m: seq<ColumnMetadata>, cols: seq<StringColumn>) returns (m': seq<ColumnMetadata>)
    ensures m' == m + StringMeta(cols)
  {
    m' := m;
    for i := 0 to |cols|
      invariant m' == m + StringMeta(cols[..i])
    {
      var entry := ColumnMetadata(cols[i].name, TStr, |cols[i].data|, []);
      assert StringMeta(cols[..i + 1]) == StringMeta(cols[..i]) + [entry];
      m' := m' + [entry];
    }
    assert cols[..|cols|] == cols;
  }

  method AppendListMeta(m: seq<ColumnMetadata>, cols: seq<ListColumn>) returns (m': seq<ColumnMetadata>)
    ensures m' == m + ListMeta(cols)
  {
    m' := m;
    for i := 0 to |cols|
      invariant m' == m + ListMeta(cols[..i])
    {
      var entry := ColumnMetadata(cols[i].name, cols[i].dtype, |cols[i].data|, []);
      assert ListMeta(cols[..i + 1]) == ListMeta(cols[..i]) + [entry];
      m' := m' + [entry];
    }
    assert cols[..|cols|] == cols;
  }

  /** The struct entries, each with its columns' metadata as children. */
  method AppendStructMeta(m: seq<ColumnMetadata>, ss: seq<StructColumn>) returns (m': seq<ColumnMetadata>)
    ensures m' == m + StructMeta(ss)
    decreases ss
  {
    m' := m;
    for i := 0 to |ss|
      invariant m' == m + StructMeta(ss[..i])
    {
      var children := Metadata(ss[i].columns);
      assert ss[..i + 1][..i] == ss[..i];
      m' := m' + [ColumnMetadata(ss[i].name, ss[i].dtype, 0, children)];
    }
    assert ss[..|ss|] == ss;
  }

  /** Columns.Metadata: the entries built kind by kind, recursing into struct columns. */
  method Metadata(c: Columns) returns (m: seq<ColumnMetadata>)
    ensures m == MetadataSpec(c)
    decreases c
  {
    m := [];
    for j := 0 to |MetaKinds|
      invariant m == KindsMeta(c, MetaKinds[..j])
    {
      assert MetaKinds[..j + 1][..j] == MetaKinds[..j];
      m := AppendScalarMeta(m, Scalars(c, MetaKinds[j]), MetaKinds[j]);
    }
    assert MetaKinds[..|MetaKinds|] == MetaKinds;
    m := AppendStringMeta(m, c.strings);
    m := AppendScalarMeta(m, c.binaries, KBinary);
    m := AppendListMeta(m, c.lists);
    m := AppendStructMeta(m, c.structs);
  }

  lemma {:induction false} StructMetaLen(ss: seq<StructColumn>)
    ensures |StructMeta(ss)| == |ss|
  {
    if ss != [] {
      StructMetaLen(ss[..|ss| - 1]);
    }
  }

  lemma {:induction false} KindsMetaEmpty(c: Columns, ks: seq<ScalarKind>)
    ensures KindsMeta(c, ks) == [] <==> forall j :: 0 <= j < |ks| ==> Scalars(c, ks[j]) == []
  {
    if ks != [] {
      KindsMetaEmpty(c, ks[..|ks| - 1]);
      assert forall j :: 0 <= j < |ks| - 1 ==> ks[..|ks| - 1][j] == ks[j];
    }
  }

  lemma EmptyMetadata(c: Columns)
    requires IsEmpty(c)
    ensures MetadataSpec(c) == []
  {
    StructMetaLen(c.structs);
    KindsMetaEmpty(c, MetaKinds);
    assert forall k :: Scalars(c, k) == [];
  }

  lemma MetadataLen(c: Columns)
    ensures |MetadataSpec(c)| == |KindsMeta(c, MetaKinds)| + |c.strings| + |c.binaries| + |c.lists| + |c.structs|
  {
    StructMetaLen(c.structs);
  }

  lemma KindsEmpty(c: Columns)
    requires KindsMeta(c, MetaKinds) == []
    ensures c.i8s == [] && c.i16s == [] && c.i32s == [] && c.i64s == []
    ensures c.u8s == [] && c.u16s == [] && c.u32s == [] && c.u64s == []
    ensures c.f32s == [] && c.f64s == [] && c.bools == []
  {
    KindsMetaEmpty(c, MetaKinds);
    assert MetaKinds[0] == KI8 && MetaKinds[1] == KI16 && MetaKinds[2] == KI32 && MetaKinds[3] == KI64;
    assert MetaKinds[4] == KU8 && MetaKinds[5] == KU16 && MetaKinds[6] == KU32 && MetaKinds[7] == KU64;
    assert MetaKinds[8] == KF32 && MetaKinds[9] == KF64 && MetaKinds[10] == KBool;
  }

  lemma MetadataNonEmpty(c: Columns)
    requires MetadataSpec(c) == []
    ensures IsEmpty(c)
  {
    MetadataLen(c);
    KindsEmpty(c);
  }

  /** Metadata is empty exactly when the container IsEmpty. */
  lemma MetadataEmpty(c: Columns)
    ensures IsEmpty(c) <==> MetadataSpec(c) == []
  {
    if IsEmpty(c) {
      EmptyMetadata(c);
    }
    if MetadataSpec(c) == [] {
      MetadataNonEmpty(c);
    }
  }

  lemma {:induction false} KindsMetaSameLayout(c: Columns, c': Columns, ks: seq<ScalarKind>)
    requires SameLayout(c, c')
    ensures |KindsMeta(c', ks)| == |KindsMeta(c, ks)|
  {
    if ks != [] {
      KindsMetaSameLayout(c, c', ks[..|ks| - 1]);
      assert |Scalars(c, ks[|ks| - 1])| == |Scalars(c', ks[|ks| - 1])|;
    }
  }

  /** Appending rows (UpdateColumn) leaves the number of metadata entries as it was. */
  lemma MetadataSameLayout(c: Columns, c': Columns)
    requires SameLayout(c, c')
    ensures |MetadataSpec(c')| == |MetadataSpec(c)|
  {
    StructMetaLen(c.structs);
    StructMetaLen(c'.structs);
    KindsMetaSameLayout(c, c', MetaKinds);
    assert |Scalars(c, KBinary)| == |Scalars(c', KBinary)|;
  }

  /** The statistics of a string column's dictionary. */
  datatype DictionaryStats = DictionaryStats(path: seq<int>, cardinality: nat, avgEntryLength: real, totalEntry: nat)

  /** StringColumn.DictionaryLen: the number of dictionary entries (0 for a nil dictionary). */
  function DictionaryLen(col: StringColumn): (n: nat)
    ensures col.dictionary.None? ==> n == 0
    ensures col.dictionary.Some? ==> n == |col.dictionary.value|
  {
    if col.dictionary.Some? then |col.dictionary.value| else 0
  }

  /**
    StringColumn.AvgValueLength: the mean value length, 0 when either total
    is 0 (the source's zero guard).
  */
  function AvgValueLength(col: StringColumn): (r: real)
  {
    if col.totalValueLength == 0 || col.totalRowCount == 0 then 0.0
    else col.totalValueLength as real / col.totalRowCount as real
  }

  /** The average times the row count gives back the total length; it is 0 exactly under the guard. */
  lemma AvgValueLengthMean(col: StringColumn)
    ensures AvgValueLength(col) >= 0.0
    ensures AvgValueLength(col) == 0.0 <==> col.totalValueLength == 0 || col.totalRowCount == 0
    ensures col.totalRowCount > 0 ==> AvgValueLength(col) * col.totalRowCount as real == col.totalValueLength as real
  {
  }

  function TotalRowCount(col: StringColumn): nat
  {
    col.totalRowCount
  }

  /** StringColumn.DictionaryStats: nil unless the column has a dictionary. */
  function StringStats(col: StringColumn): (r: Option<DictionaryStats>)
    ensures r.Some? <==> col.dictionary.Some?
    ensures r.Some? ==> (r.value.path == col.fieldPath && r.value.cardinality == |col.dictionary.value| &&
                         r.value.totalEntry == col.totalRowCount)
    ensures r.Some? ==> r.value.avgEntryLength == AvgValueLength(col)
  {
    if col.dictionary.Some? then
      Some(DictionaryStats(col.fieldPath, DictionaryLen(col), AvgValueLength(col), TotalRowCount(col)))
    else None
  }

  /**
    Columns.DictionaryStats: one entry per string column, in order, then the
    entries of each struct column's own columns.
  */
  function StatsSpec(c: Columns): seq<Option<DictionaryStats>>
  {
    seq(|c.strings|, i requires 0 <= i < |c.strings| => StringStats(c.strings[i])) + StructStats(c.structs)
  }

  /** StructColumn.DictionaryStats over a list of struct columns. */
  function StructStats(ss: seq<StructColumn>): seq<Option<DictionaryStats>>
  {
    if ss == [] then []
    else StructStats(ss[..|ss| - 1]) + StatsSpec(ss[|ss| - 1].columns)
  }

  /** Every string column of a container, at every depth, in the order Columns.DictionaryStats visits them. */
  function AllStrings(c: Columns): seq<StringColumn>
  {
    c.strings + StructStrings(c.structs)
  }

  function StructStrings(ss: seq<StructColumn>): seq<StringColumn>
  {
    if ss == [] then []
    else StructStrings(ss[..|ss| - 1]) + AllStrings(ss[|ss| - 1].columns)
  }

  /** The stats of each column of `cols`, position by position. */
  function EachStats(cols: seq<StringColumn>): (r: seq<Option<DictionaryStats>>)
    ensures |r| == |cols|
    ensures forall i :: 0 <= i < |cols| ==> r[i] == StringStats(cols[i])
  {
    seq(|cols|, i requires 0 <= i < |cols| => StringStats(cols[i]))
  }

  lemma EachStatsAppend(a: seq<StringColumn>, b: seq<StringColumn>)
    ensures EachStats(a + b) == EachStats(a) + EachStats(b)
  {
    assert |EachStats(a + b)| == |EachStats(a) + EachStats(b)|;
    forall i | 0 <= i < |a + b|
      ensures EachStats(a + b)[i] == (EachStats(a) + EachStats(b))[i]
    {
      if i >= |a| {
        assert (a + b)[i] == b[i - |a|];
      }
    }
  }

  lemma {:induction false} StructStatsEach(ss: seq<StructColumn>)
    ensures StructStats(ss) == EachStats(StructStrings(ss))
    decreases ss
  {
    if ss != [] {
      StructStatsEach(ss[..|ss| - 1]);
      StatsSpecEach(ss[|ss| - 1].columns);
      EachStatsAppend(StructStrings(ss[..|ss| - 1]), AllStrings(ss[|ss| - 1].columns));
    }
  }

  lemma {:induction false} StatsSpecEach(c: Columns)
    ensures StatsSpec(c) == EachStats(AllStrings(c))
    decreases c
  {
    StructStatsEach(c.structs);
    EachStatsAppend(c.strings, StructStrings(c.structs));
  }

  /**
    Columns.DictionaryStats reports exactly one entry per string column at
    every depth, in visiting order: the entry is nil when that column has no
    dictionary, and otherwise carries its field path, dictionary size,
    average value length and row count.
  */
  lemma StatsPerStringColumn(c: Columns)
    ensures |StatsSpec(c)| == |AllStrings(c)|
    ensures forall i :: 0 <= i < |AllStrings(c)| ==>
      (StatsSpec(c)[i].Some? <==> AllStrings(c)[i].dictionary.Some?)
    ensures forall i :: 0 <= i < |AllStrings(c)| && AllStrings(c)[i].dictionary.Some? ==>
      StatsSpec(c)[i].value == DictionaryStats(AllStrings(c)[i].fieldPath, |AllStrings(c)[i].dictionary.value|,
                                               AvgValueLength(AllStrings(c)[i]), AllStrings(c)[i].totalRowCount)
  {
    StatsSpecEach(c);
  }

  /** Columns.DictionaryStats: a loop over the string columns, then one over the struct columns. */
  method DictionaryStatsOf(c: Columns) returns (st: seq<Option<DictionaryStats>>)
    ensures st == StatsSpec(c)
    decreases c
  {
    st := [];
    for i := 0 to |c.strings|
      invariant st == seq(i, j requires 0 <= j < i => StringStats(c.strings[j]))
    {
      st := st + [StringStats(c.strings[i])];
    }
    ghost var st0 := st;
    for i := 0 to |c.structs|
      invariant st == st0 + StructStats(c.structs[..i])
    {
      var inner := DictionaryStatsOf(c.structs[i].columns);
      assert c.structs[..i + 1][..i] == c.structs[..i];
      st := st + inner;
    }
    assert c.structs[..|c.structs|] == c.structs;
  }

  /**
    Every string column, at any depth, is as CreateColumn made it: no
    dictionary and zero totals. Nothing in the container attaches a
    dictionary or adds to the totals.
  */
  predicate Pristine(c: Columns)
  {
    (forall i :: 0 <= i < |c.strings| ==>
      c.strings[i].dictionary.None? && c.strings[i].totalValueLength == 0 && c.strings[i].totalRowCount == 0) &&
    forall j :: 0 <= j < |c.structs| ==> Pristine(c.structs[j].columns)
  }

  lemma PristineEmpty()
    ensures Pristine(EmptyColumns())
  {
  }

  lemma {:induction false} CreatePristine(c: Columns, path: seq<int>, f: Field, dictId: nat)
    requires Pristine(c) && CreateSpec(c, path, f, dictId).Ok?
    ensures Pristine(CreateSpec(c, path, f, dictId).value.columns)
    decreases f
  {
    if f.value.Struct? {
      ChildrenPristine(EmptyColumns(), [], f.value.fields, dictId);
    } else if !f.value.Str? && !f.value.List? {
      var k := ScalarKindOf(f.value).value;
      assert CreateSpec(c, path, f, dictId).value.columns == WithScalars(c, k, Scalars(c, k) + [ScalarColumn(f.name, [f.value])]);
    }
  }

  lemma {:induction false} ChildrenPristine(c: Columns, paths: seq<FieldPath>, fs: seq<Field>, dictId: nat)
    requires Pristine(c) && CreateChildren(c, paths, fs, dictId).Ok?
    ensures Pristine(CreateChildren(c, paths, fs, dictId).value.columns)
    decreases fs
  {
    if fs != [] {
      var cr := CreateSpec(c, [|paths|], fs[0], dictId).value;
      var paths' := if cr.path.Some? then paths + [cr.path.value] else paths;
      CreatePristine(c, [|paths|], fs[0], dictId);
      ChildrenPristine(cr.columns, paths', fs[1..], cr.nextDictId);
    }
  }

  lemma AppendLeafPristine(c: Columns, cur: nat, v: Value)
    requires IsLeaf(v) && Pristine(c) && AppendLeaf(c, cur, v).Ok?
    ensures Pristine(AppendLeaf(c, cur, v).value)
  {
    if !v.Str? && !v.List? {
      var k := ScalarKindOf(v).value;
      assert AppendLeaf(c, cur, v).value.strings == c.strings && AppendLeaf(c, cur, v).value.structs == c.structs;
    }
  }

  lemma {:induction false} UpdatePristine(c: Columns, fp: FieldPath, f: Field)
    requires Pristine(c) && UpdateSpec(c, fp, f).Ok?
    ensures Pristine(UpdateSpec(c, fp, f).value)
    decreases f
  {
    if f.value.Struct? {
      UpdateFieldsPristine(c, fp, f.value.fields, 0);
    } else if IsLeaf(f.value) {
      AppendLeafPristine(c, fp.current, f.value);
    }
  }

  lemma {:induction false} UpdateFieldsPristine(c: Columns, fp: FieldPath, fs: seq<Field>, pos: nat)
    requires Pristine(c) && UpdateFields(c, fp, fs, pos).Ok?
    ensures Pristine(UpdateFields(c, fp, fs, pos).value)
    decreases fs
  {
    if fs != [] {
      var col := c.structs[fp.current];
      var inner := UpdateSpec(col.columns, fp.children[pos], fs[0]).value;
      var c1 := c.(structs := c.structs[fp.current := col.(columns := inner)]);
      UpdatePristine(col.columns, fp.children[pos], fs[0]);
      assert Pristine(c1) by {
        forall j | 0 <= j < |c1.structs|
          ensures Pristine(c1.structs[j].columns)
        {
          if j != fp.current {
            assert c1.structs[j] == c.structs[j];
          }
        }
      }
      UpdateFieldsPristine(c1, fp, fs[1..], pos + 1);
    }
  }

  lemma {:induction false} StructStatsNone(ss: seq<StructColumn>)
    requires forall j :: 0 <= j < |ss| ==> Pristine(ss[j].columns)
    ensures forall i :: 0 <= i < |StructStats(ss)| ==> StructStats(ss)[i].None?
    decreases ss
  {
    if ss != [] {
      StructStatsNone(ss[..|ss| - 1]);
      PristineStatsNone(ss[|ss| - 1].columns);
    }
  }

  /** In a container no dictionary has been attached to, every DictionaryStats entry is nil. */
  lemma {:induction false} PristineStatsNone(c: Columns)
    requires Pristine(c)
    ensures forall i :: 0 <= i < |StatsSpec(c)| ==> StatsSpec(c)[i].None?
    decreases c
  {
    StructStatsNone(c.structs);
  }

  /** Every string column's dictionary id is below `n`. */
  predicate IdsBelow(c: Columns, n: nat)
  {
    (forall i :: 0 <= i < |c.strings| ==> c.strings[i].dictId < n) &&
    forall j :: 0 <= j < |c.structs| ==> IdsBelow(c.structs[j].columns, n)
  }

  lemma {:induction false} IdsBelowMono(c: Columns, n: nat, m: nat)
    requires IdsBelow(c, n) && n <= m
    ensures IdsBelow(c, m)
    decreases c
  {
    forall j | 0 <= j < |c.structs|
      ensures IdsBelow(c.structs[j].columns, m)
    {
      IdsBelowMono(c.structs[j].columns, n, m);
    }
  }

  /**
    Dictionary ids are fresh: when every existing id is below the
    generator's next id, CreateColumn keeps it so, so the id a new string
    column receives is used by no other column.
  */
  lemma {:induction false} CreateIds(c: Columns, path: seq<int>, f: Field, dictId: nat)
    requires IdsBelow(c, dictId) && CreateSpec(c, path, f, dictId).Ok?
    ensures dictId <= CreateSpec(c, path, f, dictId).value.nextDictId
    ensures IdsBelow(CreateSpec(c, path, f, dictId).value.columns, CreateSpec(c, path, f, dictId).value.nextDictId)
    decreases f
  {
    var cr := CreateSpec(c, path, f, dictId).value;
    if f.value.Struct? {
      ChildrenIds(EmptyColumns(), [], f.value.fields, dictId);
      IdsBelowMono(c, dictId, cr.nextDictId);
    } else if f.value.Str? {
      IdsBelowMono(c, dictId, dictId + 1);
    } else if !f.value.List? {
      var k := ScalarKindOf(f.value).value;
      assert cr.columns == WithScalars(c, k, Scalars(c, k) + [ScalarColumn(f.name, [f.value])]);
    }
  }

  lemma {:induction false} ChildrenIds(c: Columns, paths: seq<FieldPath>, fs: seq<Field>, dictId: nat)
    requires IdsBelow(c, dictId) && CreateChildren(c, paths, fs, dictId).Ok?
    ensures dictId <= CreateChildren(c, paths, fs, dictId).value.nextDictId
    ensures IdsBelow(CreateChildren(c, paths, fs, dictId).value.columns, CreateChildren(c, paths, fs, dictId).value.nextDictId)
    decreases fs
  {
    if fs != [] {
      var cr := CreateSpec(c, [|paths|], fs[0], dictId).value;
      var paths' := if cr.path.Some? then paths + [cr.path.value] else paths;
      CreateIds(c, [|paths|], fs[0], dictId);
      ChildrenIds(cr.columns, paths', fs[1..], cr.nextDictId);
    }
  }
}
