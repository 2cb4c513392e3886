/**
  The scenarios of the record tests, stated over the model: normalization
  of a nested record, the schema id it yields (with list element types
  coerced and list-of-struct field types merged).

  The innermost struct fields of both tests are named f2_3_4_1, f2_3_4_2
  and f2_3_4_3. The scenarios are proved for any three names n1, n2, n3
  ordered as those are (TestNamesOrdered shows that the test's names are),
  so that the proofs never compute with the long names letter by letter.
*/
module RecordTests {
  import opened StrOrder
  import opened Rfield
  import opened Normalize
  import opened Schema
  import opened Coercion

  /** n1 < n2 < n3, the order of the test's innermost field names. */
  predicate InnerOrder(n1: string, n2: string, n3: string)
  {
    Less(n1, n2) && Less(n2, n3)
  }

  lemma TestNamesOrdered()
    ensures InnerOrder("f2_3_4_1", "f2_3_4_2", "f2_3_4_3")
  {
    LessCommonPrefix("f2_3_4_", "1", "2");
    LessCommonPrefix("f2_3_4_", "2", "3");
    assert "f2_3_4_" + "1" == "f2_3_4_1";
    assert "f2_3_4_" + "2" == "f2_3_4_2";
    assert "f2_3_4_" + "3" == "f2_3_4_3";
  }

  /** A string field whose value repeats its name, as in the tests. */
  function Leaf(n: string): Field
  {
    Field(n, Str(n))
  }

  // Fields shared by both tests.
  const fe := Field("e", Str(""))
  const fb := Field("b", Str(""))
  const ft := Field("t", Str(""))
  const topB := Field("b", Str(""))

  // ---------------------------------------------------------------------
  // Sorting and normalizing small field lists.

  /** Sorting two fields swaps them exactly when the first name is not below the second. */
  lemma SortPair(a: Field, b: Field)
    ensures SortByName([a, b]) == if LessEq(a.name, b.name) then [a, b] else [b, a]
  {
    assert [a, b][1..] == [b];
    assert [b][1..] == [];
    assert SortByName([b]) == [b];
    if !LessEq(a.name, b.name) {
      assert Insert(a, [b]) == [b] + Insert(a, []);
    }
  }

  /** Two fields given in descending name order come out ascending. */
  lemma SwapPair(a: Field, b: Field)
    requires Less(b.name, a.name)
    ensures SortByName([a, b]) == [b, a]
  {
    SortPair(a, b);
    Irreflexive(a.name);
    Asymmetric(a.name, b.name);
  }

  /** A field that is already normalized stays in front, unchanged. */
  lemma NormalizeKeepHead(f: Field, fs: seq<Field>, gs: seq<Field>)
    requires NormalizeValue(f.value) == f.value && NormalizeFields(fs) == gs
    ensures NormalizeFields([f] + fs) == [f] + gs
  {
    assert ([f] + fs)[1..] == fs;
  }

  /** Normalizing one field. */
  lemma NormalizeLast1(c: Field, c': Field)
    requires c'.name == c.name && NormalizeValue(c.value) == c'.value
    ensures NormalizeFields([c]) == [c']
  {
    assert [c][1..] == [];
  }

  lemma NormalizeAll2(a: Field, b: Field)
    requires NormalizeValue(a.value) == a.value && NormalizeValue(b.value) == b.value
    ensures NormalizeFields([a, b]) == [a, b]
  {
    NormalizeLast1(b, b);
    NormalizeKeepHead(a, [b], [b]);
    assert [a] + [b] == [a, b];
  }

  /** Normalizing three fields of which only the last changes. */
  lemma NormalizeLast3(a: Field, b: Field, c: Field, c': Field)
    requires NormalizeValue(a.value) == a.value && NormalizeValue(b.value) == b.value
    requires c'.name == c.name && NormalizeValue(c.value) == c'.value
    ensures NormalizeFields([a, b, c]) == [a, b, c']
  {
    NormalizeLast1(c, c');
    NormalizeKeepHead(b, [c], [c']);
    assert [b] + [c] == [b, c] && [b] + [c'] == [b, c'];
    NormalizeKeepHead(a, [b, c], [b, c']);
    assert [a] + [b, c] == [a, b, c] && [a] + [b, c'] == [a, b, c'];
  }

  /** Normalizing four fields of which only the last changes. */
  lemma NormalizeLast4(a: Field, b: Field, c: Field, d: Field, d': Field)
    requires NormalizeValue(a.value) == a.value && NormalizeValue(b.value) == b.value
    requires NormalizeValue(c.value) == c.value
    requires d'.name == d.name && NormalizeValue(d.value) == d'.value
    ensures NormalizeFields([a, b, c, d]) == [a, b, c, d']
  {
    NormalizeLast3(b, c, d, d');
    NormalizeKeepHead(a, [b, c, d], [b, c, d']);
    assert [a] + [b, c, d] == [a, b, c, d] && [a] + [b, c, d'] == [a, b, c, d'];
  }

  /** Normalizing five fields of which only the last changes. */
  lemma NormalizeLast5(a: Field, b: Field, c: Field, d: Field, e: Field, e': Field)
    requires NormalizeValue(a.value) == a.value && NormalizeValue(b.value) == b.value
    requires NormalizeValue(c.value) == c.value && NormalizeValue(d.value) == d.value
    requires e'.name == e.name && NormalizeValue(e.value) == e'.value
    ensures NormalizeFields([a, b, c, d, e]) == [a, b, c, d, e']
  {
    NormalizeLast4(b, c, d, e, e');
    NormalizeKeepHead(a, [b, c, d, e], [b, c, d, e']);
    assert [a] + [b, c, d, e] == [a, b, c, d, e] && [a] + [b, c, d, e'] == [a, b, c, d, e'];
  }

  /** A struct of two fields in descending name order, normalized. */
  lemma SwappedStruct(a: Field, b: Field)
    requires Less(b.name, a.name)
    requires NormalizeValue(a.value) == a.value && NormalizeValue(b.value) == b.value
    ensures NormalizeValue(Struct([a, b])) == Struct([b, a])
  {
    NormalizeAll2(a, b);
    SwapPair(a, b);
  }

  /** Inserting below the head of a list puts the field in front. */
  lemma InsertFront(f: Field, fs: seq<Field>)
    requires fs != [] && LessEq(f.name, fs[0].name)
    ensures Insert(f, fs) == [f] + fs
  {
  }

  /** Inserting past the head of a list keeps the head in front. */
  lemma InsertPast(f: Field, fs: seq<Field>)
    requires fs != [] && !LessEq(f.name, fs[0].name)
    ensures Insert(f, fs) == [fs[0]] + Insert(f, fs[1..])
  {
  }

  /** Level `a` of both tests: `e, b, c` sorts to `b, c, e`. */
  lemma LevelASort(e: Field, b: Field, c: Field)
    requires e.name == "e" && b.name == "b" && c.name == "c"
    ensures SortByName([e, b, c]) == [b, c, e]
  {
    assert [e, b, c][1..] == [b, c];
    SortPair(b, c);
    InsertPast(e, [b, c]);
    InsertPast(e, [c]);
    assert [c][1..] == [];
  }

  lemma LevelANormalized(e: Field, b: Field, cIn: Field, cOut: Field)
    requires e.name == "e" && b.name == "b" && cIn.name == "c" && cOut.name == "c"
    requires NormalizeValue(e.value) == e.value && NormalizeValue(b.value) == b.value
    requires NormalizeValue(cIn.value) == cOut.value
    ensures NormalizeValue(Struct([e, b, cIn])) == Struct([b, cOut, e])
  {
    NormalizeLast3(e, b, cIn, cOut);
    LevelASort(e, b, cOut);
  }

  /** The top level of both tests: `b, a` normalizes to `a, b`. */
  lemma TopLevel(top: Field, aIn: Field, aOut: Field)
    requires top.name == "b" && aIn.name == "a" && aOut.name == "a"
    requires NormalizeValue(top.value) == top.value && NormalizeValue(aIn.value) == aOut.value
    ensures NormalizeRecord([top, aIn]) == [aOut, top]
  {
    NormalizeLast1(aIn, aOut);
    NormalizeKeepHead(top, [aIn], [aOut]);
    assert [top] + [aIn] == [top, aIn] && [top] + [aOut] == [top, aOut];
    assert !LessEq(top.name, aOut.name) by {
      assert top.name[0] == 'b' && aOut.name[0] == 'a';
    }
    SortPair(top, aOut);
  }

  /** The top two levels of both tests, for any normalized values and given how level `c` normalizes. */
  lemma OuterLevelsOf(top: Field, e: Field, b: Field, cIn: Field, cOut: Field)
    requires top.name == "b" && e.name == "e" && b.name == "b" && cIn.name == "c" && cOut.name == "c"
    requires NormalizeValue(top.value) == top.value && NormalizeValue(e.value) == e.value
    requires NormalizeValue(b.value) == b.value && NormalizeValue(cIn.value) == cOut.value
    ensures NormalizeRecord([top, Field("a", Struct([e, b, cIn]))]) == [Field("a", Struct([b, cOut, e])), top]
  {
    LevelANormalized(e, b, cIn, cOut);
    TopLevel(top, Field("a", Struct([e, b, cIn])), Field("a", Struct([b, cOut, e])));
  }

  lemma OuterLevels(cIn: Field, cOut: Field)
    requires cIn.name == "c" && cOut.name == "c" && NormalizeValue(cIn.value) == cOut.value
    ensures NormalizeRecord([topB, Field("a", Struct([fe, fb, cIn]))])
         == [Field("a", Struct([fb, cOut, fe])), topB]
  {
    OuterLevelsOf(topB, fe, fb, cIn, cOut);
  }

  // ---------------------------------------------------------------------
  // TestRecordNormalize.

  const cx := Field("x", Str(""))
  const cz := Field("z", List([I64(1), I64(2)]))

  /** Field `a` of level `c`: a list holding one struct of the two inner fields. */
  function NormInnerIn(n1: string, n2: string): Field
  {
    Field("a", List([Struct([Leaf(n2), Leaf(n1)])]))
  }

  function NormInnerOut(n1: string, n2: string): Field
  {
    Field("a", List([Struct([Leaf(n1), Leaf(n2)])]))
  }

  /**
    The record as the test builds it:
    b:"", a:{e:"", b:"", c:{x:"", t:"", z:[1, 2], a:[{n2:n2, n1:n1}]}}
  */
  function NormalizeInput(n1: string, n2: string): seq<Field>
  {
    [topB, Field("a", Struct([fe, fb, Field("c", Struct([cx, ft, cz, NormInnerIn(n1, n2)]))]))]
  }

  /**
    The record the test expects after Normalize:
    a:{b:"", c:{a:[{n1:n1, n2:n2}], t:"", x:"", z:[1, 2]}, e:""}, b:""
  */
  function NormalizeExpected(n1: string, n2: string): seq<Field>
  {
    [Field("a", Struct([fb, Field("c", Struct([NormInnerOut(n1, n2), ft, cx, cz])), fe])), topB]
  }

  lemma NormInnerNormalized(n1: string, n2: string)
    requires Less(n1, n2)
    ensures NormalizeValue(NormInnerIn(n1, n2).value) == NormInnerOut(n1, n2).value
  {
    SwappedStruct(Leaf(n2), Leaf(n1));
    assert NormalizeList([Struct([Leaf(n2), Leaf(n1)])]) == [Struct([Leaf(n1), Leaf(n2)])];
  }

  /** `t, z, a` sorts to `a, t, z`. */
  lemma SortTZA(t: Field, z: Field, a: Field)
    requires t.name == "t" && z.name == "z" && a.name == "a"
    ensures SortByName([t, z, a]) == [a, t, z]
  {
    assert [t, z, a][1..] == [z, a];
    SortPair(z, a);
    InsertPast(t, [a, z]);
    assert [a, z][1..] == [z];
    InsertFront(t, [z]);
  }

  /** Level `c` of the normalization test: `x, t, z, a` sorts to `a, t, x, z`. */
  lemma NormLevelCSort(x: Field, t: Field, z: Field, a: Field)
    requires x.name == "x" && t.name == "t" && z.name == "z" && a.name == "a"
    ensures SortByName([x, t, z, a]) == [a, t, x, z]
  {
    assert [x, t, z, a][1..] == [t, z, a];
    SortTZA(t, z, a);
    InsertPast(x, [a, t, z]);
    assert [a, t, z][1..] == [t, z];
    InsertPast(x, [t, z]);
    assert [t, z][1..] == [z];
    InsertFront(x, [z]);
  }

  /** Level `c` of the normalization test, for any values that are already normalized but `a`'s. */
  lemma NormLevelCOf(x: Field, t: Field, z: Field, aIn: Field, aOut: Field)
    requires x.name == "x" && t.name == "t" && z.name == "z"
    requires aIn.name == "a" && aOut.name == "a" && NormalizeValue(aIn.value) == aOut.value
    requires NormalizeValue(x.value) == x.value && NormalizeValue(t.value) == t.value
    requires NormalizeValue(z.value) == z.value
    ensures NormalizeValue(Struct([x, t, z, aIn])) == Struct([aOut, t, x, z])
  {
    NormalizeLast4(x, t, z, aIn, aOut);
    NormLevelCSort(x, t, z, aOut);
  }

  lemma NormLevelC(n1: string, n2: string)
    requires Less(n1, n2)
    ensures NormalizeValue(Struct([cx, ft, cz, NormInnerIn(n1, n2)]))
         == Struct([NormInnerOut(n1, n2), ft, cx, cz])
  {
    NormInnerNormalized(n1, n2);
    FlatListNormalized([I64(1), I64(2)]);
    NormLevelCOf(cx, ft, cz, NormInnerIn(n1, n2), NormInnerOut(n1, n2));
  }

  /**
    TestRecordNormalize: fields are sorted by name at every level, also
    inside the struct held by a list, and every value (the empty strings
    included) is kept.
  */
  lemma NormalizeScenario(n1: string, n2: string)
    requires Less(n1, n2)
    ensures NormalizeRecord(NormalizeInput(n1, n2)) == NormalizeExpected(n1, n2)
  {
    NormLevelC(n1, n2);
    OuterLevels(Field("c", Struct([cx, ft, cz, NormInnerIn(n1, n2)])),
                Field("c", Struct([NormInnerOut(n1, n2), ft, cx, cz])));
  }

  // ---------------------------------------------------------------------
  // TestRecordSchemaId: normalization.

  const sy := Field("y", List([I8(1), I64(2), Str("true")]))
  const sx := Field("x", List([I8(1), I64(2), Bool(true)]))
  const sz := Field("z", List([I8(1), I64(2)]))

  /** Field `a` of level `c`: a list of the structs {n2:I8 1, n1:I8 2} and {n3:n3, n1:n1}. */
  function SchemaInnerIn(n1: string, n2: string, n3: string): Field
  {
    Field("a", List([Struct([Field(n2, I8(1)), Field(n1, I8(2))]), Struct([Leaf(n3), Leaf(n1)])]))
  }

  function SchemaInnerOut(n1: string, n2: string, n3: string): Field
  {
    Field("a", List([Struct([Field(n1, I8(2)), Field(n2, I8(1))]), Struct([Leaf(n1), Leaf(n3)])]))
  }

  /**
    The record as the test builds it:
    b:"", a:{e:"", b:"", c:{y:[I8 1, I64 2, "true"], x:[I8 1, I64 2, true],
    t:"", z:[I8 1, I64 2], a:[{n2:I8 1, n1:I8 2}, {n3:n3, n1:n1}]}}
  */
  function SchemaInput(n1: string, n2: string, n3: string): seq<Field>
  {
    [topB, Field("a", Struct([fe, fb, Field("c", Struct([sy, sx, ft, sz, SchemaInnerIn(n1, n2, n3)]))]))]
  }

  function SchemaNormalized(n1: string, n2: string, n3: string): seq<Field>
  {
    [Field("a", Struct([fb, Field("c", Struct([SchemaInnerOut(n1, n2, n3), ft, sx, sy, sz])), fe])), topB]
  }

  /** A two-element list normalizes element by element. */
  lemma NormalizePairList(u: Value, v: Value, u': Value, v': Value)
    requires NormalizeValue(u) == u' && NormalizeValue(v) == v'
    ensures NormalizeValue(List([u, v])) == List([u', v'])
  {
    assert NormalizeList([u, v]) == [u', v'];
  }

  lemma SchemaInnerNormalized(n1: string, n2: string, n3: string)
    requires InnerOrder(n1, n2, n3)
    ensures NormalizeValue(SchemaInnerIn(n1, n2, n3).value) == SchemaInnerOut(n1, n2, n3).value
  {
    Transitive(n1, n2, n3);
    SwappedStruct(Field(n2, I8(1)), Field(n1, I8(2)));
    SwappedStruct(Leaf(n3), Leaf(n1));
    NormalizePairList(Struct([Field(n2, I8(1)), Field(n1, I8(2))]), Struct([Leaf(n3), Leaf(n1)]),
                      Struct([Field(n1, I8(2)), Field(n2, I8(1))]), Struct([Leaf(n1), Leaf(n3)]));
  }

  /** A list without structs or lists inside is already normalized. */
  lemma FlatListNormalized(vs: seq<Value>)
    requires forall i :: 0 <= i < |vs| ==> !vs[i].Struct? && !vs[i].List?
    ensures NormalizeValue(List(vs)) == List(vs)
  {
    assert NormalizeList(vs) == vs;
  }

  lemma ScalarListsNormalized()
    ensures NormalizeValue(sy.value) == sy.value
    ensures NormalizeValue(sx.value) == sx.value
    ensures NormalizeValue(sz.value) == sz.value
  {
    FlatListNormalized([I8(1), I64(2), Str("true")]);
    FlatListNormalized([I8(1), I64(2), Bool(true)]);
    FlatListNormalized([I8(1), I64(2)]);
  }

  /** Level `c` of the schema-id test: `y, x, t, z, a` sorts to `a, t, x, y, z`. */
  lemma SchemaLevelCSort(y: Field, x: Field, t: Field, z: Field, a: Field)
    requires y.name == "y" && x.name == "x" && t.name == "t" && z.name == "z" && a.name == "a"
    ensures SortByName([y, x, t, z, a]) == [a, t, x, y, z]
  {
    NormLevelCSort(x, t, z, a);
    assert [y, x, t, z, a][1..] == [x, t, z, a];
    InsertPast(y, [a, t, x, z]);
    assert [a, t, x, z][1..] == [t, x, z];
    InsertPast(y, [t, x, z]);
    assert [t, x, z][1..] == [x, z];
    InsertPast(y, [x, z]);
    assert [x, z][1..] == [z];
    InsertFront(y, [z]);
  }

  /** Level `c` of the schema-id test, for any values that are already normalized but `a`'s. */
  lemma LevelCNormalized(y: Field, x: Field, t: Field, z: Field, aIn: Field, aOut: Field)
    requires y.name == "y" && x.name == "x" && t.name == "t" && z.name == "z"
    requires aIn.name == "a" && aOut.name == "a" && NormalizeValue(aIn.value) == aOut.value
    requires NormalizeValue(y.value) == y.value && NormalizeValue(x.value) == x.value
    requires NormalizeValue(t.value) == t.value && NormalizeValue(z.value) == z.value
    ensures NormalizeValue(Struct([y, x, t, z, aIn])) == Struct([aOut, t, x, y, z])
  {
    NormalizeLast5(y, x, t, z, aIn, aOut);
    SchemaLevelCSort(y, x, t, z, aOut);
  }

  lemma SchemaLevelC(n1: string, n2: string, n3: string)
    requires InnerOrder(n1, n2, n3)
    ensures NormalizeValue(Struct([sy, sx, ft, sz, SchemaInnerIn(n1, n2, n3)]))
         == Struct([SchemaInnerOut(n1, n2, n3), ft, sx, sy, sz])
  {
    ScalarListsNormalized();
    SchemaInnerNormalized(n1, n2, n3);
    LevelCNormalized(sy, sx, ft, sz, SchemaInnerIn(n1, n2, n3), SchemaInnerOut(n1, n2, n3));
  }

  lemma SchemaRecordNormalized(n1: string, n2: string, n3: string)
    requires InnerOrder(n1, n2, n3)
    ensures NormalizeRecord(SchemaInput(n1, n2, n3)) == SchemaNormalized(n1, n2, n3)
  {
    SchemaLevelC(n1, n2, n3);
    OuterLevels(Field("c", Struct([sy, sx, ft, sz, SchemaInnerIn(n1, n2, n3)])),
                Field("c", Struct([SchemaInnerOut(n1, n2, n3), ft, sx, sy, sz])));
  }

  // ---------------------------------------------------------------------
  // TestRecordSchemaId: types.

  lemma FieldTypesOfTwo(a: Field, b: Field)
    ensures FieldTypes([a, b]) == [FieldType(a.name, TypeOf(a.value)), FieldType(b.name, TypeOf(b.value))]
  {
    assert [a, b][1..] == [b];
    assert [b][1..] == [];
  }

  lemma FieldTypesOfThree(a: Field, b: Field, c: Field)
    ensures FieldTypes([a, b, c]) == [FieldType(a.name, TypeOf(a.value))] + FieldTypes([b, c])
  {
    assert [a, b, c][1..] == [b, c];
  }

  lemma FieldTypesOfFive(a: Field, b: Field, c: Field, d: Field, e: Field)
    ensures FieldTypes([a, b, c, d, e]) ==
      [FieldType(a.name, TypeOf(a.value)), FieldType(b.name, TypeOf(b.value))] + FieldTypes([c, d, e])
  {
    assert [a, b, c, d, e][1..] == [b, c, d, e];
    assert [b, c, d, e][1..] == [c, d, e];
  }

  /** The element type of a two-element list: the first element's type coerced with the second's. */
  lemma ElemTypeOfTwo(a: Value, b: Value)
    ensures ElemType([a, b]) == Coerce(TypeOf(a), TypeOf(b))
  {
    assert [a, b][..1] == [a];
    assert [a][..0] == [];
    assert ElemType([a]) == TypeOf(a);
  }

  lemma ScalarElemTypes()
    ensures ElemType([I8(1), I64(2)]) == TInt(W64)
  {
    ElemTypeOfTwo(I8(1), I64(2));
  }

  /** [I8, I64, String] gives String; [I8, I64, Bool] gives I64. */
  lemma MixedElemTypes()
    ensures ElemType([I8(1), I64(2), Str("true")]) == TStr
    ensures ElemType([I8(1), I64(2), Bool(true)]) == TInt(W64)
  {
    ScalarElemTypes();
    assert [I8(1), I64(2), Str("true")][..2] == [I8(1), I64(2)];
    assert [I8(1), I64(2), Bool(true)][..2] == [I8(1), I64(2)];
  }

  /**
    Merging two sorted two-field lists whose first names agree and whose
    second names differ: the common field gets the coerced type, the other
    two are kept in name order.
  */
  lemma MergeTwoPairs(a1: FieldType, a2: FieldType, b1: FieldType, b2: FieldType)
    requires a1.name == b1.name && Less(a2.name, b2.name)
    ensures MergeFieldTypes([a1, a2], [b1, b2]) == [FieldType(a1.name, Coerce(a1.dtype, b1.dtype)), a2, b2]
  {
    Irreflexive(a2.name);
    assert [a1, a2][1..] == [a2] && [b1, b2][1..] == [b2];
    assert [a2][1..] == [];
    assert MergeFieldTypes([a2], [b2]) == [a2] + MergeFieldTypes([], [b2]);
  }

  /** The type of the merged list-of-struct elements: the union of names, I8 and String give String. */
  function MergedType(n1: string, n2: string, n3: string): DataType
  {
    TStruct([FieldType(n1, TStr), FieldType(n2, TInt(W8)), FieldType(n3, TStr)])
  }

  lemma InnerStructTypes(n1: string, n2: string, n3: string)
    ensures TypeOf(Struct([Field(n1, I8(2)), Field(n2, I8(1))]))
         == TStruct([FieldType(n1, TInt(W8)), FieldType(n2, TInt(W8))])
    ensures TypeOf(Struct([Leaf(n1), Leaf(n3)])) == TStruct([FieldType(n1, TStr), FieldType(n3, TStr)])
  {
    PairStructType(Field(n1, I8(2)), Field(n2, I8(1)));
    PairStructType(Leaf(n1), Leaf(n3));
  }

  lemma PairStructType(a: Field, b: Field)
    ensures TypeOf(Struct([a, b])) == TStruct([FieldType(a.name, TypeOf(a.value)), FieldType(b.name, TypeOf(b.value))])
  {
    FieldTypesOfTwo(a, b);
  }

  lemma InnerStructsMerged(n1: string, n2: string, n3: string)
    requires InnerOrder(n1, n2, n3)
    ensures Coerce(TStruct([FieldType(n1, TInt(W8)), FieldType(n2, TInt(W8))]),
                   TStruct([FieldType(n1, TStr), FieldType(n3, TStr)]))
         == MergedType(n1, n2, n3)
  {
    var t1 := [FieldType(n1, TInt(W8)), FieldType(n2, TInt(W8))];
    var t2 := [FieldType(n1, TStr), FieldType(n3, TStr)];
    CoerceStructs(t1, t2);
    MergeTwoPairs(t1[0], t1[1], t2[0], t2[1]);
    StrAbsorbs(TInt(W8));
  }

  lemma InnerListType(n1: string, n2: string, n3: string)
    requires InnerOrder(n1, n2, n3)
    ensures TypeOf(SchemaInnerOut(n1, n2, n3).value) == TList(MergedType(n1, n2, n3))
  {
    InnerStructTypes(n1, n2, n3);
    InnerStructsMerged(n1, n2, n3);
    ElemTypeOfTwo(Struct([Field(n1, I8(2)), Field(n2, I8(1))]), Struct([Leaf(n1), Leaf(n3)]));
  }

  /** The field types of level `c`, given the type of its list `a`. */
  function LevelCTypes(t: DataType): seq<FieldType>
  {
    [FieldType("a", t), FieldType("t", TStr), FieldType("x", TList(TInt(W64))),
     FieldType("y", TList(TStr)), FieldType("z", TList(TInt(W64)))]
  }

  /** The types of level `c`, for any fields of the types the test's lists have. */
  lemma LevelCTypeOf(a: Field, t: Field, x: Field, y: Field, z: Field)
    requires a.name == "a" && t.name == "t" && x.name == "x" && y.name == "y" && z.name == "z"
    requires TypeOf(t.value) == TStr && TypeOf(x.value) == TList(TInt(W64))
    requires TypeOf(y.value) == TList(TStr) && TypeOf(z.value) == TList(TInt(W64))
    ensures TypeOf(Struct([a, t, x, y, z])) == TStruct(LevelCTypes(TypeOf(a.value)))
  {
    FieldTypesOfFive(a, t, x, y, z);
    FieldTypesOfThree(x, y, z);
    FieldTypesOfTwo(y, z);
  }

  lemma LevelCType(a: Field)
    requires a.name == "a"
    ensures TypeOf(Struct([a, ft, sx, sy, sz])) == TStruct(LevelCTypes(TypeOf(a.value)))
  {
    MixedElemTypes();
    ScalarElemTypes();
    LevelCTypeOf(a, ft, sx, sy, sz);
  }

  /** The field types of level `a`, given the type of its struct `c`. */
  function LevelATypes(t: DataType): seq<FieldType>
  {
    [FieldType("b", TStr), FieldType("c", t), FieldType("e", TStr)]
  }

  lemma OuterTypes(c: Field)
    requires c.name == "c"
    ensures FieldTypes([Field("a", Struct([fb, c, fe])), topB])
         == [FieldType("a", TStruct(LevelATypes(TypeOf(c.value)))), FieldType("b", TStr)]
  {
    FieldTypesOfThree(fb, c, fe);
    FieldTypesOfTwo(c, fe);
    FieldTypesOfTwo(Field("a", Struct([fb, c, fe])), topB);
    assert FieldTypes([fb, c, fe]) == LevelATypes(TypeOf(c.value));
  }

  // ---------------------------------------------------------------------
  // TestRecordSchemaId: the id string.

  /** `name:type`, one entry of a schema id. */
  function Entry(name: string, t: string): string
  {
    name + ":" + t
  }

  function Braced(s: string): string
  {
    "{" + s + "}"
  }

  /** The entries joined by commas. */
  function Joined(ss: seq<string>): string
  {
    if ss == [] then ""
    else if |ss| == 1 then ss[0]
    else ss[0] + "," + Joined(ss[1..])
  }

  /**
    The id the test expects, level by level; read together it is
    a:{b:Str,c:{a:[{n1:Str,n2:I8,n3:Str}],t:Str,x:[I64],y:[Str],z:[I64]},e:Str},b:Str
  */
  function ExpectedId(n1: string, n2: string, n3: string): string
  {
    var merged := Braced(Joined([Entry(n1, "Str"), Entry(n2, "I8"), Entry(n3, "Str")]));
    var c := Braced(Joined([Entry("a", "[" + merged + "]"), Entry("t", "Str"),
                            Entry("x", "[I64]"), Entry("y", "[Str]"), Entry("z", "[I64]")]));
    var a := Braced(Joined([Entry("b", "Str"), Entry("c", c), Entry("e", "Str")]));
    Joined([Entry("a", a), Entry("b", "Str")])
  }

  /** The entries of a list of field types. */
  function Entries(fs: seq<FieldType>): (r: seq<string>)
    ensures |r| == |fs|
  {
    seq(|fs|, i requires 0 <= i < |fs| => FieldString(fs[i]))
  }

  /** The textual form of a field list is its entries joined by commas. */
  lemma {:induction false} FieldsStringJoined(fs: seq<FieldType>)
    ensures FieldsString(fs) == Joined(Entries(fs))
    decreases |fs|
  {
    if |fs| > 1 {
      FieldsStringJoined(fs[1..]);
      assert Entries(fs)[1..] == Entries(fs[1..]);
    }
  }

  /** The scalar and list tags the test's id uses. */
  lemma Tags()
    ensures TypeString(TStr) == "Str" && TypeString(TInt(W8)) == "I8"
    ensures TypeString(TList(TInt(W64))) == "[I64]" && TypeString(TList(TStr)) == "[Str]"
  {
  }

  lemma MergedString(n1: string, n2: string, n3: string)
    ensures TypeString(MergedType(n1, n2, n3))
         == Braced(Joined([Entry(n1, "Str"), Entry(n2, "I8"), Entry(n3, "Str")]))
  {
    var fs := MergedType(n1, n2, n3).fields;
    FieldsStringJoined(fs);
    Tags();
    assert Entries(fs) == [Entry(n1, "Str"), Entry(n2, "I8"), Entry(n3, "Str")];
  }

  lemma LevelCEntries(t: DataType)
    ensures Entries(LevelCTypes(t)) == [Entry("a", TypeString(t)), Entry("t", "Str"),
                                        Entry("x", "[I64]"), Entry("y", "[Str]"), Entry("z", "[I64]")]
  {
    Tags();
  }

  lemma LevelCString(t: DataType)
    ensures TypeString(TStruct(LevelCTypes(t)))
         == Braced(Joined([Entry("a", TypeString(t)), Entry("t", "Str"),
                           Entry("x", "[I64]"), Entry("y", "[Str]"), Entry("z", "[I64]")]))
  {
    FieldsStringJoined(LevelCTypes(t));
    LevelCEntries(t);
  }

  lemma LevelAString(t: DataType)
    ensures TypeString(TStruct(LevelATypes(t)))
         == Braced(Joined([Entry("b", "Str"), Entry("c", TypeString(t)), Entry("e", "Str")]))
  {
    var fs := LevelATypes(t);
    FieldsStringJoined(fs);
    Tags();
    assert Entries(fs) == [Entry("b", "Str"), Entry("c", TypeString(t)), Entry("e", "Str")];
  }

  lemma TopString(t: DataType)
    ensures FieldsString([FieldType("a", t), FieldType("b", TStr)])
         == Joined([Entry("a", TypeString(t)), Entry("b", "Str")])
  {
    var fs := [FieldType("a", t), FieldType("b", TStr)];
    FieldsStringJoined(fs);
    Tags();
    assert Entries(fs) == [Entry("a", TypeString(t)), Entry("b", "Str")];
  }

  /**
    TestRecordSchemaId: the schema id of the normalized record lists the
    fields in name order at every level, gives each list the coerced type
    of its elements, and gives a list of structs the merged field types.
  */
  lemma SchemaIdScenario(n1: string, n2: string, n3: string)
    requires InnerOrder(n1, n2, n3)
    ensures SchemaId(NormalizeRecord(SchemaInput(n1, n2, n3))) == ExpectedId(n1, n2, n3)
  {
    SchemaRecordNormalized(n1, n2, n3);
    var inner := SchemaInnerOut(n1, n2, n3);
    var c := Field("c", Struct([inner, ft, sx, sy, sz]));
    InnerListType(n1, n2, n3);
    LevelCType(inner);
    OuterTypes(c);
    var tc := TStruct(LevelCTypes(TList(MergedType(n1, n2, n3))));
    MergedString(n1, n2, n3);
    LevelCString(TList(MergedType(n1, n2, n3)));
    LevelAString(tc);
    TopString(TStruct(LevelATypes(tc)));
  }

  /** TestRecordNormalize with the test's own names. */
  lemma TestRecordNormalize()
    ensures NormalizeRecord(NormalizeInput("f2_3_4_1", "f2_3_4_2")) == NormalizeExpected("f2_3_4_1", "f2_3_4_2")
  {
    TestNamesOrdered();
    NormalizeScenario("f2_3_4_1", "f2_3_4_2");
  }

  /** TestRecordSchemaId with the test's own names. */
  lemma TestRecordSchemaId()
    ensures SchemaId(NormalizeRecord(SchemaInput("f2_3_4_1", "f2_3_4_2", "f2_3_4_3")))
         == ExpectedId("f2_3_4_1", "f2_3_4_2", "f2_3_4_3")
  {
    TestNamesOrdered();
    SchemaIdScenario("f2_3_4_1", "f2_3_4_2", "f2_3_4_3");
  }
}
