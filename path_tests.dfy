/**
  The path-lookup and comparison scenarios of the record tests: lookups by
  child index into a normalized record, and a two-key comparison.
*/
module PathTests {
  import opened Wrappers
  import opened StrOrder
  import opened Rfield
  import opened Normalize
  import opened Paths

  // Fields of the path-lookup test's record.
  const p1 := Field("f2_3_4_1", Str("f2_3_4_1"))
  const p2 := Field("f2_3_4_2", Str("f2_3_4_2"))
  const zs := List([I64(1), I64(2)])
  const vx := Field("x", Str("x"))
  const vt := Field("t", Str("t"))
  const vz := Field("z", zs)
  const vaIn := Field("a", List([Struct([p2, p1])]))
  const vaOut := Field("a", List([Struct([p1, p2])]))
  const ve := Field("e1", Str("e1"))
  const vb := Field("b1", Str("b1"))
  const vcIn := Field("c1", Struct([vx, vt, vz, vaIn]))
  const vcOut := Field("c1", Struct([vaOut, vt, vx, vz]))
  const topB := Field("b", Str("b"))
  const topAIn := Field("a", Struct([ve, vb, vcIn]))
  const topAOut := Field("a", Struct([vb, vcOut, ve]))

  /** The record of TestValue as it is built: `b` first, then `a` with `e1, b1, c1`. */
  function ValueInput(): seq<Field>
  {
    [topB, topAIn]
  }

  lemma InnerNamesOrdered()
    ensures !LessEq(p2.name, p1.name)
  {
    LessCommonPrefix("f2_3_4_", "2", "1");
    assert "f2_3_4_" + "2" == p2.name && "f2_3_4_" + "1" == p1.name;
  }

  lemma InnerSorted()
    ensures SortByName([p2, p1]) == [p1, p2]
  {
    InnerNamesOrdered();
    assert [p2, p1][1..] == [p1];
    assert [p1][1..] == [];
    assert SortByName([p1]) == [p1];
    assert Insert(p2, [p1]) == [p1, p2];
  }

  lemma InnerListNormalized()
    ensures NormalizeValue(List([Struct([p2, p1])])) == List([Struct([p1, p2])])
  {
    assert NormalizeFields([p2, p1]) == [p2, p1];
    InnerSorted();
    assert NormalizeValue(Struct([p2, p1])) == Struct([p1, p2]);
    assert NormalizeList([Struct([p2, p1])]) == [Struct([p1, p2])];
  }

  lemma CFieldsNormalized()
    ensures NormalizeFields([vx, vt, vz, vaIn]) == [vx, vt, vz, vaOut]
  {
    assert NormalizeList([I64(1), I64(2)]) == [I64(1), I64(2)];
    InnerListNormalized();
  }

  lemma CSort1()
    ensures SortByName([vz, vaOut]) == [vaOut, vz]
  {
    assert [vz, vaOut][1..] == [vaOut];
    assert [vaOut][1..] == [];
    assert SortByName([vaOut]) == [vaOut];
    assert Insert(vz, [vaOut]) == [vaOut, vz];
  }

  lemma CSort2()
    ensures SortByName([vt, vz, vaOut]) == [vaOut, vt, vz]
  {
    CSort1();
    assert [vt, vz, vaOut][1..] == [vz, vaOut];
    assert [vaOut, vz][1..] == [vz];
    assert Insert(vt, [vz]) == [vt, vz];
    assert Insert(vt, [vaOut, vz]) == [vaOut, vt, vz];
  }

  lemma CSort3()
    ensures SortByName([vx, vt, vz, vaOut]) == [vaOut, vt, vx, vz]
  {
    CSort2();
    assert [vx, vt, vz, vaOut][1..] == [vt, vz, vaOut];
    assert [vaOut, vt, vz][1..] == [vt, vz];
    assert [vt, vz][1..] == [vz];
    assert Insert(vx, [vz]) == [vx, vz];
    assert Insert(vx, [vt, vz]) == [vt, vx, vz];
    assert Insert(vx, [vaOut, vt, vz]) == [vaOut, vt, vx, vz];
  }

  lemma CNormalized()
    ensures NormalizeValue(Struct([vx, vt, vz, vaIn])) == Struct([vaOut, vt, vx, vz])
  {
    CFieldsNormalized();
    CSort3();
  }

  lemma ASort()
    ensures SortByName([ve, vb, vcOut]) == [vb, vcOut, ve]
  {
    assert [ve, vb, vcOut][1..] == [vb, vcOut];
    assert [vb, vcOut][1..] == [vcOut];
    assert [vcOut][1..] == [];
    assert SortByName([vcOut]) == [vcOut];
    assert Insert(vb, [vcOut]) == [vb, vcOut];
    assert SortByName([vb, vcOut]) == [vb, vcOut];
    assert Insert(ve, [vcOut]) == [vcOut, ve];
    assert Insert(ve, [vb, vcOut]) == [vb, vcOut, ve];
  }

  lemma ANormalized()
    ensures NormalizeValue(Struct([ve, vb, vcIn])) == Struct([vb, vcOut, ve])
  {
    CNormalized();
    assert NormalizeFields([ve, vb, vcIn]) == [ve, vb, vcOut];
    ASort();
  }

  /** TestValue normalizes its record to `a{b1, c1{a, t, x, z}, e1}, b`. */
  lemma ValueRecordNormalized()
    ensures NormalizeRecord(ValueInput()) == [topAOut, topB]
  {
    ANormalized();
    assert NormalizeFields([topB, topAIn]) == [topB, topAOut];
    assert [topB, topAOut][1..] == [topAOut];
    assert [topAOut][1..] == [];
    assert SortByName([topAOut]) == [topAOut];
    assert Insert(topB, [topAOut]) == [topAOut, topB];
  }

  lemma LookupB1()
    ensures ValueByPath([topAOut, topB], [0, 0]) == Some(Str("b1"))
  {
    assert [0, 0][1..] == [0];
    assert [0][1..] == [];
    assert ValueAt(vb.value, []) == Some(Str("b1"));
  }

  lemma LookupE1()
    ensures ValueByPath([topAOut, topB], [0, 2]) == Some(Str("e1"))
  {
    assert [0, 2][1..] == [2];
    assert [2][1..] == [];
    assert ValueAt(ve.value, []) == Some(Str("e1"));
    assert ValueAt(topAOut.value, [2]) == Some(Str("e1"));
  }

  lemma LookupB()
    ensures ValueByPath([topAOut, topB], [1]) == Some(Str("b"))
  {
    assert [1][1..] == [];
  }

  /** From `a.c1` on: the value of `a.c1` followed by `q`. */
  lemma LookupC1(q: seq<int>)
    ensures ValueByPath([topAOut, topB], [0, 1] + q) == ValueAt(vcOut.value, q)
  {
    ValueByPathConcat([topAOut, topB], [0, 1], q);
    assert [0, 1][1..] == [1];
    assert [1][1..] == [];
    assert ValueAt(vcOut.value, []) == Some(vcOut.value);
    assert ValueByPath([topAOut, topB], [0, 1]) == Some(vcOut.value);
  }

  lemma LookupDeep()
    ensures ValueAt(vcOut.value, [0, 0, 0]) == Some(Str("f2_3_4_1"))
  {
    assert [0, 0, 0][1..] == [0, 0];
    assert [0, 0][1..] == [0];
    assert [0][1..] == [];
    assert ValueAt(p1.value, []) == Some(Str("f2_3_4_1"));
    assert ValueAt(Struct([p1, p2]), [0]) == Some(Str("f2_3_4_1"));
    assert ValueAt(vaOut.value, [0, 0]) == Some(Str("f2_3_4_1"));
  }

  lemma LookupC1Leaves()
    ensures ValueAt(vcOut.value, [1]) == Some(Str("t"))
    ensures ValueAt(vcOut.value, [2]) == Some(Str("x"))
    ensures ValueAt(vcOut.value, [3, 0]) == Some(I64(1))
    ensures ValueAt(vcOut.value, [3, 1]) == Some(I64(2))
  {
    assert [1][1..] == [] && [2][1..] == [];
    assert [3, 0][1..] == [0] && [3, 1][1..] == [1] && [0][1..] == [];
    assert ValueAt(zs, [0]) == Some(I64(1));
    assert ValueAt(zs, [1]) == Some(I64(2));
  }

  lemma LookupsUnderC1()
    ensures ValueByPath([topAOut, topB], [0, 1, 0, 0, 0]) == Some(Str("f2_3_4_1"))
    ensures ValueByPath([topAOut, topB], [0, 1, 1]) == Some(Str("t"))
    ensures ValueByPath([topAOut, topB], [0, 1, 2]) == Some(Str("x"))
    ensures ValueByPath([topAOut, topB], [0, 1, 3, 0]) == Some(I64(1))
    ensures ValueByPath([topAOut, topB], [0, 1, 3, 1]) == Some(I64(2))
  {
    LookupDeep();
    LookupC1Leaves();
    LookupC1([0, 0, 0]);
    LookupC1([1]);
    LookupC1([2]);
    LookupC1([3, 0]);
    LookupC1([3, 1]);
    assert [0, 1] + [0, 0, 0] == [0, 1, 0, 0, 0];
    assert [0, 1] + [1] == [0, 1, 1];
    assert [0, 1] + [2] == [0, 1, 2];
    assert [0, 1] + [3, 0] == [0, 1, 3, 0];
    assert [0, 1] + [3, 1] == [0, 1, 3, 1];
  }

  /** The lookups of TestValue, by child index into the normalized record. */
  lemma ValueByPathScenario()
    ensures ValueByPath(NormalizeRecord(ValueInput()), [0, 0]) == Some(Str("b1"))
    ensures ValueByPath(NormalizeRecord(ValueInput()), [0, 1, 0, 0, 0]) == Some(Str("f2_3_4_1"))
    ensures ValueByPath(NormalizeRecord(ValueInput()), [0, 1, 1]) == Some(Str("t"))
    ensures ValueByPath(NormalizeRecord(ValueInput()), [0, 1, 2]) == Some(Str("x"))
    ensures ValueByPath(NormalizeRecord(ValueInput()), [0, 1, 3, 0]) == Some(I64(1))
    ensures ValueByPath(NormalizeRecord(ValueInput()), [0, 1, 3, 1]) == Some(I64(2))
    ensures ValueByPath(NormalizeRecord(ValueInput()), [0, 2]) == Some(Str("e1"))
    ensures ValueByPath(NormalizeRecord(ValueInput()), [1]) == Some(Str("b"))
  {
    ValueRecordNormalized();
    LookupB1();
    LookupE1();
    LookupB();
    LookupsUnderC1();
  }

  /**
    TestCompare: two records that agree on field `b` (path [1]) compare equal
    on that key in both directions; adding the key `ts` (path [3]), on which
    the first record is smaller, orders them -1 one way and 1 the other.
    The generated records of the test are not built here: this is
    CompareRecordsZero and CompareRecordsAntisymmetric instantiated at the
    test's key paths, with the order on `ts` taken as a hypothesis.
  */
  lemma CompareScenario(r1: seq<Field>, r2: seq<Field>, t1: Value, t2: Value)
    requires ValueByPath(r1, [1]) == ValueByPath(r2, [1])
    requires ValueByPath(r1, [3]) == Some(t1) && ValueByPath(r2, [3]) == Some(t2)
    requires CompareValue(t1, t2) == -1
    ensures CompareRecords(r1, r2, [[1]]) == 0 && CompareRecords(r2, r1, [[1]]) == 0
    ensures CompareRecords(r1, r2, [[1], [3]]) == -1 && CompareRecords(r2, r1, [[1], [3]]) == 1
  {
    CompareOptAntisymmetric(ValueByPath(r1, [1]), ValueByPath(r2, [1]));
    CompareValueAntisymmetric(t1, t2);
    assert [[1], [3]][1..] == [[3]];
    assert [[3]][1..] == [];
    assert [[1]][1..] == [];
  }
}
