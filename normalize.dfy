/**
  Record normalization: every struct, at every depth and also inside list
  elements, has its fields sorted by name; values are left as they are.
*/
module Normalize {
  import opened StrOrder
  import opened Rfield

  predicate SortedByName(fs: seq<Field>)
  {
    forall i, j :: 0 <= i < j < |fs| ==> LessEq(fs[i].name, fs[j].name)
  }

  lemma SortedCons(f: Field, fs: seq<Field>)
    requires SortedByName(fs)
    requires forall g | g in multiset(fs) :: LessEq(f.name, g.name)
    ensures SortedByName([f] + fs)
  {
    forall i, j | 0 <= i < j < |[f] + fs| ensures LessEq(([f] + fs)[i].name, ([f] + fs)[j].name) {
      if i == 0 {
        assert fs[j - 1] in multiset(fs);
      }
    }
  }

  lemma BelowAll(f: Field, fs: seq<Field>)
    requires SortedByName(fs) && fs != [] && LessEq(f.name, fs[0].name)
    ensures forall g | g in multiset(fs) :: LessEq(f.name, g.name)
  {
    forall g | g in multiset(fs) ensures LessEq(f.name, g.name) {
      var j :| 0 <= j < |fs| && fs[j] == g;
      LessEqTransitive(f.name, fs[0].name, fs[j].name);
    }
  }

  /** Inserts f before the first field whose name is not smaller. */
  function Insert(f: Field, fs: seq<Field>): seq<Field>
  {
    if fs == [] then [f]
    else if LessEq(f.name, fs[0].name) then [f] + fs
    else [fs[0]] + Insert(f, fs[1..])
  }

  /** Sorts fields by name (an insertion sort; equal names keep their order). */
  function SortByName(fs: seq<Field>): seq<Field>
  {
    if fs == [] then [] else Insert(fs[0], SortByName(fs[1..]))
  }

  /** Inserting into a sorted sequence keeps it sorted and adds exactly f. */
  lemma {:induction false} InsertSorted(f: Field, fs: seq<Field>)
    requires SortedByName(fs)
    ensures SortedByName(Insert(f, fs))
    ensures multiset(Insert(f, fs)) == multiset(fs) + multiset{f}
  {
    if fs == [] {
    } else if LessEq(f.name, fs[0].name) {
      BelowAll(f, fs);
      SortedCons(f, fs);
    } else {
      LessEqTotal(f.name, fs[0].name);
      var rest := Insert(f, fs[1..]);
      InsertSorted(f, fs[1..]);
      assert fs == [fs[0]] + fs[1..];
      BelowAll(fs[0], fs);
      assert forall g: Field | g in multiset(rest) :: LessEq(fs[0].name, g.name);
      SortedCons(fs[0], rest);
    }
  }

  /** The sort yields a name-sorted permutation of its input. */
  lemma {:induction false} SortByNameSorted(fs: seq<Field>)
    ensures SortedByName(SortByName(fs))
    ensures multiset(SortByName(fs)) == multiset(fs)
    ensures |SortByName(fs)| == |fs|
  {
    if fs != [] {
      SortByNameSorted(fs[1..]);
      InsertSorted(fs[0], SortByName(fs[1..]));
      assert fs == [fs[0]] + fs[1..];
    }
  }

  /** Sorting fields that are already sorted changes nothing. */
  lemma {:induction false} SortSorted(fs: seq<Field>)
    requires SortedByName(fs)
    ensures SortByName(fs) == fs
  {
    if fs != [] {
      SortSorted(fs[1..]);
      assert fs == [fs[0]] + fs[1..];
    }
  }

  lemma DropHead(fs: seq<Field>)
    requires fs != []
    ensures multiset(fs[1..]) == multiset(fs) - multiset{fs[0]}
  {
    assert fs == [fs[0]] + fs[1..];
  }

  /** Two name-sorted permutations with distinct names start with the same field. */
  lemma SortedSameHead(fs: seq<Field>, gs: seq<Field>)
    requires SortedByName(fs) && SortedByName(gs)
    requires DistinctNames(fs)
    requires multiset(fs) == multiset(gs)
    requires fs != []
    ensures gs != [] && fs[0] == gs[0]
  {
    assert fs[0] in multiset(gs);
    var x, y := fs[0], gs[0];
    assert y in multiset(fs);
    var i :| 0 <= i < |gs| && gs[i] == x;
    var j :| 0 <= j < |fs| && fs[j] == y;
    assert LessEq(x.name, y.name) && LessEq(y.name, x.name);
    LessEqAntisymmetric(x.name, y.name);
  }

  /** Two name-sorted sequences of fields with distinct names and the same elements are equal. */
  lemma {:induction false} SortedUnique(fs: seq<Field>, gs: seq<Field>)
    requires SortedByName(fs) && SortedByName(gs)
    requires DistinctNames(fs)
    requires multiset(fs) == multiset(gs)
    ensures fs == gs
  {
    if fs != [] {
      SortedSameHead(fs, gs);
      DropHead(fs);
      DropHead(gs);
      SortedUnique(fs[1..], gs[1..]);
      assert fs == [fs[0]] + fs[1..] && gs == [gs[0]] + gs[1..];
    }
  }

  predicate DistinctNames(fs: seq<Field>)
  {
    forall i, j :: 0 <= i < j < |fs| ==> fs[i].name != fs[j].name
  }

  /** Normalize of one value: sort struct fields at every level, recurse into list elements. */
  function NormalizeValue(v: Value): Value
  {
    match v
    case Struct(fs) => Struct(SortByName(NormalizeFields(fs)))
    case List(vs) => List(NormalizeList(vs))
    case _ => v
  }

  /** Normalizes each field's value in place, keeping names and order. */
  function NormalizeFields(fs: seq<Field>): (r: seq<Field>)
    ensures |r| == |fs|
    ensures forall i :: 0 <= i < |fs| ==> r[i].name == fs[i].name && r[i].value == NormalizeValue(fs[i].value)
  {
    if fs == [] then []
    else [Field(fs[0].name, NormalizeValue(fs[0].value))] + NormalizeFields(fs[1..])
  }

  function NormalizeList(vs: seq<Value>): (r: seq<Value>)
    ensures |r| == |vs|
    ensures forall i :: 0 <= i < |vs| ==> r[i] == NormalizeValue(vs[i])
  {
    if vs == [] then []
    else [NormalizeValue(vs[0])] + NormalizeList(vs[1..])
  }

  /** Record.Normalize on the top-level fields of a record. */
  function NormalizeRecord(fs: seq<Field>): seq<Field>
  {
    SortByName(NormalizeFields(fs))
  }

  /** A value is normalized when every struct in it is sorted by name. */
  predicate Normalized(v: Value)
  {
    match v
    case Struct(fs) => SortedByName(fs) && AllNormalized(fs)
    case List(vs) => forall i :: 0 <= i < |vs| ==> Normalized(vs[i])
    case _ => true
  }

  predicate AllNormalized(fs: seq<Field>)
  {
    forall i :: 0 <= i < |fs| ==> Normalized(fs[i].value)
  }

  /** AllNormalized depends only on the multiset of fields. */
  lemma AllNormalizedPermutation(fs: seq<Field>, gs: seq<Field>)
    requires multiset(fs) == multiset(gs)
    requires AllNormalized(fs)
    ensures AllNormalized(gs)
  {
    forall i | 0 <= i < |gs| ensures Normalized(gs[i].value) {
      assert gs[i] in multiset(fs);
    }
  }

  /** Normalize produces a normalized value. */
  lemma {:induction false} NormalizeIsNormalized(v: Value)
    ensures Normalized(NormalizeValue(v))
  {
    match v
    case Struct(fs) =>
      var nfs := NormalizeFields(fs);
      NormalizeFieldsNormalized(fs);
      SortByNameSorted(nfs);
      AllNormalizedPermutation(nfs, SortByName(nfs));
    case List(vs) =>
      forall i | 0 <= i < |vs| ensures Normalized(NormalizeList(vs)[i]) {
        NormalizeIsNormalized(vs[i]);
      }
    case _ =>
  }

  lemma {:induction false} NormalizeFieldsNormalized(fs: seq<Field>)
    ensures AllNormalized(NormalizeFields(fs))
  {
    forall i | 0 <= i < |fs| ensures Normalized(NormalizeFields(fs)[i].value) {
      NormalizeIsNormalized(fs[i].value);
    }
  }

  /** Normalizing a normalized value changes nothing. */
  lemma {:induction false} NormalizedFixpoint(v: Value)
    requires Normalized(v)
    ensures NormalizeValue(v) == v
  {
    match v
    case Struct(fs) =>
      forall i | 0 <= i < |fs| ensures NormalizeFields(fs)[i] == fs[i] {
        NormalizedFixpoint(fs[i].value);
      }
      assert NormalizeFields(fs) == fs;
      SortSorted(fs);
    case List(vs) =>
      forall i | 0 <= i < |vs| ensures NormalizeList(vs)[i] == vs[i] {
        NormalizedFixpoint(vs[i]);
      }
      assert NormalizeList(vs) == vs;
    case _ =>
  }

  /** Normalize is idempotent. */
  lemma NormalizeIdempotent(v: Value)
    ensures NormalizeValue(NormalizeValue(v)) == NormalizeValue(v)
  {
    NormalizeIsNormalized(v);
    NormalizedFixpoint(NormalizeValue(v));
  }

  /** Record normalization is idempotent and yields sorted, normalized fields. */
  lemma NormalizeRecordIdempotent(fs: seq<Field>)
    ensures SortedByName(NormalizeRecord(fs)) && AllNormalized(NormalizeRecord(fs))
    ensures NormalizeRecord(NormalizeRecord(fs)) == NormalizeRecord(fs)
  {
    NormalizeIsNormalized(Struct(fs));
    NormalizedFixpoint(NormalizeValue(Struct(fs)));
  }

  lemma {:induction false} DistinctCountAtMostOne(fs: seq<Field>, a: Field)
    requires DistinctNames(fs)
    ensures multiset(fs)[a] <= 1
  {
    if fs != [] {
      assert fs == [fs[0]] + fs[1..];
      DistinctCountAtMostOne(fs[1..], a);
      if fs[0] == a {
        assert a !in fs[1..];
      }
    }
  }

  lemma CountTwo(gs: seq<Field>, i: nat, j: nat)
    requires i < j < |gs| && gs[i] == gs[j]
    ensures multiset(gs)[gs[i]] >= 2
  {
    var a := gs[i];
    assert gs == gs[..i] + [a] + gs[i + 1..j] + [a] + gs[j + 1..];
  }

  lemma DistinctElementsDistinctNames(fs: seq<Field>, a: Field, b: Field)
    requires DistinctNames(fs)
    requires a in multiset(fs) && b in multiset(fs) && a != b
    ensures a.name != b.name
  {
    var p :| 0 <= p < |fs| && fs[p] == a;
    var q :| 0 <= q < |fs| && fs[q] == b;
    assert p != q;
  }

  /** A permutation of fields with distinct names has distinct names. */
  lemma DistinctNamesPermutation(fs: seq<Field>, gs: seq<Field>)
    requires multiset(fs) == multiset(gs)
    requires DistinctNames(fs)
    ensures DistinctNames(gs)
  {
    forall i, j | 0 <= i < j < |gs| ensures gs[i].name != gs[j].name {
      if gs[i] == gs[j] {
        CountTwo(gs, i, j);
        DistinctCountAtMostOne(fs, gs[i]);
      } else {
        DistinctElementsDistinctNames(fs, gs[i], gs[j]);
      }
    }
  }

  function NormalizeField(f: Field): Field
  {
    Field(f.name, NormalizeValue(f.value))
  }

  lemma NormalizeFieldsIsMap(fs: seq<Field>)
    ensures NormalizeFields(fs) == MapFields(NormalizeField, fs)
  {
  }

  /** Applies `f` to every field, in order. */
  function MapFields(f: Field -> Field, fs: seq<Field>): (r: seq<Field>)
    ensures |r| == |fs|
  {
    if fs == [] then [] else [f(fs[0])] + MapFields(f, fs[1..])
  }
  lemma RemoveAt(gs: seq<Field>, j: nat)
    requires j < |gs|
    ensures gs == gs[..j] + ([gs[j]] + gs[j + 1..])
    ensures multiset(gs[..j] + gs[j + 1..]) == multiset(gs) - multiset{gs[j]}
  {
    assert gs == gs[..j] + [gs[j]] + gs[j + 1..];
  }
  lemma {:induction false} MapFieldsConcat(f: Field -> Field, a: seq<Field>, b: seq<Field>)
    ensures MapFields(f, a + b) == MapFields(f, a) + MapFields(f, b)
  {
    if a == [] {
      assert a + b == b;
    } else {
      assert (a + b)[1..] == a[1..] + b;
      MapFieldsConcat(f, a[1..], b);
    }
  }

  lemma MapFieldsCons(f: Field -> Field, fs: seq<Field>)
    requires fs != []
    ensures MapFields(f, fs) == [f(fs[0])] + MapFields(f, fs[1..])
  {
  }

  lemma MapFieldsInsert(f: Field -> Field, pre: seq<Field>, x: Field, post: seq<Field>)
    ensures multiset(MapFields(f, pre + ([x] + post))) == multiset(MapFields(f, pre + post)) + multiset{f(x)}
  {
    MapFieldsConcat(f, pre, [x] + post);
    MapFieldsConcat(f, pre, post);
    MapFieldsCons(f, [x] + post);
    assert ([x] + post)[1..] == post;
  }

  lemma IndexOf(gs: seq<Field>, x: Field) returns (j: nat)
    requires x in multiset(gs)
    ensures j < |gs| && gs[j] == x
  {
    j :| 0 <= j < |gs| && gs[j] == x;
  }

  lemma SplitAt(fs: seq<Field>, gs: seq<Field>) returns (pre: seq<Field>, post: seq<Field>)
    requires fs != [] && multiset(fs) == multiset(gs)
    ensures gs == pre + ([fs[0]] + post)
    ensures multiset(fs[1..]) == multiset(pre + post)
  {
    var j := IndexOf(gs, fs[0]);
    RemoveAt(gs, j);
    DropHead(fs);
    pre, post := gs[..j], gs[j + 1..];
  }

  /** Mapping a function over two permutations gives two permutations. */
  lemma {:induction false} MapFieldsPermutation(f: Field -> Field, fs: seq<Field>, gs: seq<Field>)
    requires multiset(fs) == multiset(gs)
    ensures multiset(MapFields(f, fs)) == multiset(MapFields(f, gs))
    decreases |fs|
  {
    if fs == [] {
      assert |gs| == |multiset(gs)| == 0;
    } else {
      var pre, post := SplitAt(fs, gs);
      MapFieldsPermutation(f, fs[1..], pre + post);
      MapFieldsInsert(f, pre, fs[0], post);
      MapFieldsCons(f, fs);
    }
  }

  /**
    Insertion order does not matter: two records holding the same fields
    (distinct names, any order) normalize to the same field sequence.
  */
  lemma NormalizeOrderInsensitive(fs: seq<Field>, gs: seq<Field>)
    requires multiset(fs) == multiset(gs)
    requires DistinctNames(fs)
    ensures NormalizeRecord(fs) == NormalizeRecord(gs)
  {
    var nf, ng := NormalizeFields(fs), NormalizeFields(gs);
    NormalizeFieldsIsMap(fs);
    NormalizeFieldsIsMap(gs);
    MapFieldsPermutation(NormalizeField, fs, gs);
    assert DistinctNames(nf);
    SortByNameSorted(nf);
    SortByNameSorted(ng);
    DistinctNamesPermutation(nf, SortByName(nf));
    SortedUnique(SortByName(nf), SortByName(ng));
  }
}
