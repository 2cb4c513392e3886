/**
  Record.ValueByPath and Record.Compare: addressing a value of a record by a
  path of child indices, and ordering two records by a list of such paths.
  A path's first index selects a top-level field; each further index selects
  a field of a struct or an element of a list. Every index that falls outside
  its level (or that goes below a scalar) makes the lookup fail.
*/
module Paths {
  import opened Wrappers
  import opened StrOrder
  import opened Rfield

  /** The value a path leads to, starting from a value. */
  function ValueAt(v: Value, path: seq<int>): Option<Value>
  {
    if path == [] then Some(v)
    else
      var i := path[0];
      match v
      case Struct(fs) => if 0 <= i < |fs| then ValueAt(fs[i].value, path[1..]) else None
      case List(vs) => if 0 <= i < |vs| then ValueAt(vs[i], path[1..]) else None
      case _ => None
  }

  /** Record.ValueByPath: the first index selects a top-level field. */
  function ValueByPath(fs: seq<Field>, path: seq<int>): Option<Value>
  {
    if path == [] || !(0 <= path[0] < |fs|) then None
    else ValueAt(fs[path[0]].value, path[1..])
  }

  /** Following `p + q` is following `p`, then `q` from where `p` led. */
  lemma {:induction false} ValueAtConcat(v: Value, p: seq<int>, q: seq<int>)
    ensures ValueAt(v, p + q) == (match ValueAt(v, p) case None => None case Some(w) => ValueAt(w, q))
  {
    if p == [] {
      assert p + q == q;
    } else {
      assert (p + q)[0] == p[0];
      assert (p + q)[1..] == p[1..] + q;
      match v
      case Struct(fs) =>
        if 0 <= p[0] < |fs| {
          ValueAtConcat(fs[p[0]].value, p[1..], q);
        }
      case List(vs) =>
        if 0 <= p[0] < |vs| {
          ValueAtConcat(vs[p[0]], p[1..], q);
        }
      case _ =>
    }
  }

  /** The same composition for a path that starts at the record. */
  lemma ValueByPathConcat(fs: seq<Field>, p: seq<int>, q: seq<int>)
    requires p != []
    ensures ValueByPath(fs, p + q) == (match ValueByPath(fs, p) case None => None case Some(w) => ValueAt(w, q))
  {
    assert (p + q)[0] == p[0];
    assert (p + q)[1..] == p[1..] + q;
    if 0 <= p[0] < |fs| {
      ValueAtConcat(fs[p[0]].value, p[1..], q);
    }
  }

  /** A path that resolves has a prefix that resolves. */
  lemma ValueByPathPrefix(fs: seq<Field>, p: seq<int>, q: seq<int>)
    requires p != [] && ValueByPath(fs, p + q).Some?
    ensures ValueByPath(fs, p).Some?
  {
    ValueByPathConcat(fs, p, q);
  }

  /** Fixed order of the value kinds, used when two values of different kinds are compared. */
  function Rank(v: Value): nat
  {
    match v
    case Null => 0
    case Bool(_) => 1
    case I8(_) => 2
    case I16(_) => 3
    case I32(_) => 4
    case I64(_) => 5
    case U8(_) => 6
    case U16(_) => 7
    case U32(_) => 8
    case U64(_) => 9
    case F32(_) => 10
    case F64(_) => 11
    case Str(_) => 12
    case Binary(_) => 13
    case List(_) => 14
    case Struct(_) => 15
  }

  function CompareInt(x: int, y: int): int
  {
    if x < y then -1 else if x == y then 0 else 1
  }

  function CompareReal(x: real, y: real): int
  {
    if x < y then -1 else if x == y then 0 else 1
  }

  function CompareBool(x: bool, y: bool): int
  {
    if x == y then 0 else if !x then -1 else 1
  }

  function CompareBytes(a: seq<Uint8>, b: seq<Uint8>): int
  {
    if a == [] then (if b == [] then 0 else -1)
    else if b == [] then 1
    else if a[0] != b[0] then CompareInt(a[0], b[0])
    else CompareBytes(a[1..], b[1..])
  }

  /**
    Three-way comparison of two values: values of different kinds compare by
    their kind's rank, scalars of one kind by their payload, lists element by
    element and structs field by field (name, then value), a shorter prefix
    first.
  */
  function CompareValue(a: Value, b: Value): int
  {
    if Rank(a) != Rank(b) then CompareInt(Rank(a), Rank(b))
    else match a
      case Null => 0
      case Bool(x) => CompareBool(x, b.b)
      case I8(x) => CompareInt(x, b.i8)
      case I16(x) => CompareInt(x, b.i16)
      case I32(x) => CompareInt(x, b.i32)
      case I64(x) => CompareInt(x, b.i64)
      case U8(x) => CompareInt(x, b.u8)
      case U16(x) => CompareInt(x, b.u16)
      case U32(x) => CompareInt(x, b.u32)
      case U64(x) => CompareInt(x, b.u64)
      case F32(x) => CompareReal(x, b.f32)
      case F64(x) => CompareReal(x, b.f64)
      case Str(s) => CompareStr(s, b.s)
      case Binary(x) => CompareBytes(x, b.bytes)
      case List(vs) => CompareList(vs, b.values)
      case Struct(fs) => CompareFields(fs, b.fields)
  }

  function CompareList(vs: seq<Value>, ws: seq<Value>): int
  {
    if vs == [] then (if ws == [] then 0 else -1)
    else if ws == [] then 1
    else
      var c := CompareValue(vs[0], ws[0]);
      if c != 0 then c else CompareList(vs[1..], ws[1..])
  }

  function CompareFields(fs: seq<Field>, gs: seq<Field>): int
  {
    if fs == [] then (if gs == [] then 0 else -1)
    else if gs == [] then 1
    else
      var c := CompareStr(fs[0].name, gs[0].name);
      if c != 0 then c
      else
        var d := CompareValue(fs[0].value, gs[0].value);
        if d != 0 then d else CompareFields(fs[1..], gs[1..])
  }

  /** A missing value (a path that does not resolve) sorts before every value. */
  function CompareOpt(a: Option<Value>, b: Option<Value>): int
  {
    match (a, b)
    case (None, None) => 0
    case (None, Some(_)) => -1
    case (Some(_), None) => 1
    case (Some(x), Some(y)) => CompareValue(x, y)
  }

  /** Record.Compare: the first sort key on which the two records differ decides. */
  function CompareRecords(r1: seq<Field>, r2: seq<Field>, keys: seq<seq<int>>): int
  {
    if keys == [] then 0
    else
      var c := CompareOpt(ValueByPath(r1, keys[0]), ValueByPath(r2, keys[0]));
      if c != 0 then c else CompareRecords(r1, r2, keys[1..])
  }

  lemma {:induction false} CompareBytesAntisymmetric(a: seq<Uint8>, b: seq<Uint8>)
    ensures CompareBytes(a, b) == -CompareBytes(b, a)
    ensures CompareBytes(a, b) == 0 <==> a == b
  {
    if a != [] && b != [] && a[0] == b[0] {
      CompareBytesAntisymmetric(a[1..], b[1..]);
      assert a == [a[0]] + a[1..] && b == [b[0]] + b[1..];
    }
  }

  /** Swapping the operands negates the comparison; it is 0 exactly on equal values. */
  lemma {:induction false} CompareValueAntisymmetric(a: Value, b: Value)
    ensures CompareValue(a, b) == -CompareValue(b, a)
    ensures CompareValue(a, b) == 0 <==> a == b
    decreases a
  {
    if Rank(a) == Rank(b) {
      match a
      case Binary(x) => CompareBytesAntisymmetric(x, b.bytes);
      case List(vs) => CompareListAntisymmetric(vs, b.values);
      case Struct(fs) => CompareFieldsAntisymmetric(fs, b.fields);
      case _ =>
    }
  }

  lemma {:induction false} CompareListAntisymmetric(vs: seq<Value>, ws: seq<Value>)
    ensures CompareList(vs, ws) == -CompareList(ws, vs)
    ensures CompareList(vs, ws) == 0 <==> vs == ws
    decreases vs
  {
    if vs != [] && ws != [] {
      CompareValueAntisymmetric(vs[0], ws[0]);
      if vs[0] == ws[0] {
        CompareListAntisymmetric(vs[1..], ws[1..]);
        assert vs == [vs[0]] + vs[1..] && ws == [ws[0]] + ws[1..];
      }
    }
  }

  lemma {:induction false} CompareFieldsAntisymmetric(fs: seq<Field>, gs: seq<Field>)
    ensures CompareFields(fs, gs) == -CompareFields(gs, fs)
    ensures CompareFields(fs, gs) == 0 <==> fs == gs
    decreases fs
  {
    if fs != [] && gs != [] {
      if fs[0].name == gs[0].name {
        CompareValueAntisymmetric(fs[0].value, gs[0].value);
        if fs[0].value == gs[0].value {
          CompareFieldsAntisymmetric(fs[1..], gs[1..]);
          assert fs == [fs[0]] + fs[1..] && gs == [gs[0]] + gs[1..];
        }
      }
    }
  }

  lemma CompareOptAntisymmetric(a: Option<Value>, b: Option<Value>)
    ensures CompareOpt(a, b) == -CompareOpt(b, a)
    ensures CompareOpt(a, b) == 0 <==> a == b
  {
    if a.Some? && b.Some? {
      CompareValueAntisymmetric(a.value, b.value);
    }
  }

  /** Record.Compare is antisymmetric: swapping the records negates the result. */
  lemma {:induction false} CompareRecordsAntisymmetric(r1: seq<Field>, r2: seq<Field>, keys: seq<seq<int>>)
    ensures CompareRecords(r1, r2, keys) == -CompareRecords(r2, r1, keys)
  {
    if keys != [] {
      CompareOptAntisymmetric(ValueByPath(r1, keys[0]), ValueByPath(r2, keys[0]));
      CompareRecordsAntisymmetric(r1, r2, keys[1..]);
    }
  }

  /** Record.Compare is 0 exactly when every sort key resolves to the same value (or fails) on both records. */
  lemma {:induction false} CompareRecordsZero(r1: seq<Field>, r2: seq<Field>, keys: seq<seq<int>>)
    ensures CompareRecords(r1, r2, keys) == 0 <==> forall k :: k in keys ==> ValueByPath(r1, k) == ValueByPath(r2, k)
  {
    if keys != [] {
      CompareOptAntisymmetric(ValueByPath(r1, keys[0]), ValueByPath(r2, keys[0]));
      CompareRecordsZero(r1, r2, keys[1..]);
      assert forall k :: k in keys <==> k == keys[0] || k in keys[1..];
    }
  }
}
