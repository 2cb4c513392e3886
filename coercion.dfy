/**
  Properties of the pairwise type coercion: the unsigned-width cases the
  source's tests assert, and the algebra (idempotent, commutative,
  associative) that makes folding it over a list independent of grouping.
*/
module Coercion {
  import opened StrOrder
  import opened Rfield

  /** Size measure used to order the mutually recursive proofs. */
  function TypeSize(t: DataType): nat
  {
    match t
    case TList(e) => 1 + TypeSize(e)
    case TStruct(fs) => 1 + FieldTypesSize(fs)
    case _ => 1
  }

  function FieldTypesSize(fs: seq<FieldType>): nat
  {
    if fs == [] then 0 else 1 + TypeSize(fs[0].dtype) + FieldTypesSize(fs[1..])
  }

  /** String is the top of the lattice: it absorbs every other tag. */
  lemma StrAbsorbs(t: DataType)
    ensures Coerce(TStr, t) == TStr && Coerce(t, TStr) == TStr
  {
  }

  lemma {:induction false} MergeSelf(fs: seq<FieldType>)
    ensures MergeFieldTypes(fs, fs) == fs
  {
    if fs != [] {
      MergeSelf(fs[1..]);
    }
  }

  /** Two lists always coerce element-wise (also when they are equal). */
  lemma CoerceLists(x: DataType, y: DataType)
    ensures Coerce(TList(x), TList(y)) == TList(Coerce(x, y))
  {
  }

  /** Two structs always merge their fields (also when they are equal). */
  lemma CoerceStructs(fs: seq<FieldType>, gs: seq<FieldType>)
    ensures Coerce(TStruct(fs), TStruct(gs)) == TStruct(MergeFieldTypes(fs, gs))
  {
    if fs == gs {
      MergeSelf(fs);
    }
  }

  /** Coercing a type with itself yields that type. */
  lemma CoerceIdempotent(t: DataType)
    ensures Coerce(t, t) == t
  {
  }

  lemma {:induction false} CoerceCommutative(a: DataType, b: DataType)
    ensures Coerce(a, b) == Coerce(b, a)
    decreases TypeSize(a) + TypeSize(b)
  {
    if a != b && a != TNull && b != TNull {
      if a.TList? && b.TList? {
        CoerceCommutative(a.elem, b.elem);
      } else if a.TStruct? && b.TStruct? {
        MergeCommutative(a.fields, b.fields);
      }
    }
  }

  lemma {:induction false} MergeCommutative(fs: seq<FieldType>, gs: seq<FieldType>)
    ensures MergeFieldTypes(fs, gs) == MergeFieldTypes(gs, fs)
    decreases FieldTypesSize(fs) + FieldTypesSize(gs)
  {
    if fs != [] && gs != [] {
      if fs[0].name == gs[0].name {
        CoerceCommutative(fs[0].dtype, gs[0].dtype);
        MergeCommutative(fs[1..], gs[1..]);
      } else if Less(fs[0].name, gs[0].name) {
        Asymmetric(fs[0].name, gs[0].name);
        MergeCommutative(fs[1..], gs);
      } else {
        Trichotomy(fs[0].name, gs[0].name);
        MergeCommutative(fs, gs[1..]);
      }
    }
  }

  /** Tags that are neither lists nor structs (Null and String included). */
  predicate IsScalar(t: DataType)
  {
    !t.TList? && !t.TStruct?
  }

  /**
    The widening order on scalar tags, stated independently of Coerce: Null
    is below everything, String above everything, Bool below every integer
    type, and within one signedness (or among floats) narrower is below wider.
  */
  predicate Widens(a: DataType, b: DataType)
  {
    || a == b
    || a == TNull
    || b == TStr
    || (a == TBool && (b.TInt? || b.TUint?))
    || (a.TInt? && b.TInt? && Bits(a.w) <= Bits(b.w))
    || (a.TUint? && b.TUint? && Bits(a.w) <= Bits(b.w))
    || (a.TFloat? && b.TFloat? && (a.fw == FW32 || b.fw == FW64))
  }

  lemma WidensTransitive(a: DataType, b: DataType, c: DataType)
    requires Widens(a, b) && Widens(b, c)
    ensures Widens(a, c)
  {
  }

  lemma WidensAntisymmetric(a: DataType, b: DataType)
    requires Widens(a, b) && Widens(b, a)
    ensures a == b
  {
  }

  /** On scalar tags, Coerce is the least upper bound in the widening order. */
  lemma CoerceIsLeastUpperBound(a: DataType, b: DataType, u: DataType)
    requires IsScalar(a) && IsScalar(b)
    ensures IsScalar(Coerce(a, b))
    ensures Widens(a, Coerce(a, b)) && Widens(b, Coerce(a, b))
    ensures IsScalar(u) && Widens(a, u) && Widens(b, u) ==> Widens(Coerce(a, b), u)
  {
  }

  /** The left-nested join of three scalars is below the right-nested one. */
  lemma LeftBelowRight(a: DataType, b: DataType, c: DataType)
    requires IsScalar(a) && IsScalar(b) && IsScalar(c)
    ensures Widens(Coerce(Coerce(a, b), c), Coerce(a, Coerce(b, c)))
  {
    var ab, bc := Coerce(a, b), Coerce(b, c);
    var r := Coerce(a, bc);
    CoerceIsLeastUpperBound(b, c, r);
    CoerceIsLeastUpperBound(a, bc, r);
    WidensTransitive(b, bc, r);
    WidensTransitive(c, bc, r);
    CoerceIsLeastUpperBound(a, b, r);
    CoerceIsLeastUpperBound(ab, c, r);
  }

  /** The right-nested join of three scalars is below the left-nested one. */
  lemma RightBelowLeft(a: DataType, b: DataType, c: DataType)
    requires IsScalar(a) && IsScalar(b) && IsScalar(c)
    ensures Widens(Coerce(a, Coerce(b, c)), Coerce(Coerce(a, b), c))
  {
    var ab, bc := Coerce(a, b), Coerce(b, c);
    var l := Coerce(ab, c);
    CoerceIsLeastUpperBound(a, b, l);
    CoerceIsLeastUpperBound(ab, c, l);
    WidensTransitive(a, ab, l);
    WidensTransitive(b, ab, l);
    CoerceIsLeastUpperBound(b, c, l);
    CoerceIsLeastUpperBound(a, bc, l);
  }

  lemma ScalarAssociative(a: DataType, b: DataType, c: DataType)
    requires IsScalar(a) && IsScalar(b) && IsScalar(c)
    ensures Coerce(Coerce(a, b), c) == Coerce(a, Coerce(b, c))
  {
    LeftBelowRight(a, b, c);
    RightBelowLeft(a, b, c);
    WidensAntisymmetric(Coerce(Coerce(a, b), c), Coerce(a, Coerce(b, c)));
  }

  /** Coercion is associative on all tags, lists and structs included. */
  lemma {:induction false} CoerceAssociative(a: DataType, b: DataType, c: DataType)
    ensures Coerce(Coerce(a, b), c) == Coerce(a, Coerce(b, c))
    decreases TypeSize(a) + TypeSize(b) + TypeSize(c), 1
  {
    if a == TNull || b == TNull || c == TNull {
      NullIdentity(a);
      NullIdentity(b);
      NullIdentity(c);
    } else if IsScalar(a) && IsScalar(b) && IsScalar(c) {
      ScalarAssociative(a, b, c);
    } else if a.TList? && b.TList? && c.TList? {
      ListsAssociative(a, b, c);
    } else if a.TStruct? && b.TStruct? && c.TStruct? {
      StructsAssociative(a, b, c);
    } else {
      MixedAssociative(a, b, c);
    }
  }

  lemma {:induction false} ListsAssociative(a: DataType, b: DataType, c: DataType)
    requires a.TList? && b.TList? && c.TList?
    ensures Coerce(Coerce(a, b), c) == Coerce(a, Coerce(b, c))
    decreases TypeSize(a) + TypeSize(b) + TypeSize(c), 0
  {
    CoerceLists(a.elem, b.elem);
    CoerceLists(b.elem, c.elem);
    CoerceLists(Coerce(a.elem, b.elem), c.elem);
    CoerceLists(a.elem, Coerce(b.elem, c.elem));
    CoerceAssociative(a.elem, b.elem, c.elem);
  }

  lemma {:induction false} StructsAssociative(a: DataType, b: DataType, c: DataType)
    requires a.TStruct? && b.TStruct? && c.TStruct?
    ensures Coerce(Coerce(a, b), c) == Coerce(a, Coerce(b, c))
    decreases TypeSize(a) + TypeSize(b) + TypeSize(c), 0
  {
    CoerceStructs(a.fields, b.fields);
    CoerceStructs(b.fields, c.fields);
    CoerceStructs(MergeFieldTypes(a.fields, b.fields), c.fields);
    CoerceStructs(a.fields, MergeFieldTypes(b.fields, c.fields));
    MergeAssociative(a.fields, b.fields, c.fields);
  }

  /** 0 for scalar tags, 1 for lists, 2 for structs. */
  function Shape(t: DataType): nat
  {
    if t.TList? then 1 else if t.TStruct? then 2 else 0
  }

  lemma ShapeMismatch(x: DataType, y: DataType)
    requires x != TNull && y != TNull && Shape(x) != Shape(y)
    ensures Coerce(x, y) == TStr
  {
  }

  lemma ShapeKept(x: DataType, y: DataType)
    requires x != TNull && y != TNull && Shape(x) == Shape(y)
    ensures Coerce(x, y) != TNull
    ensures Coerce(x, y) == TStr || Shape(Coerce(x, y)) == Shape(x)
  {
  }

  /** Three non-null tags that are not all of one shape join to String either way. */
  lemma MixedAssociative(a: DataType, b: DataType, c: DataType)
    requires a != TNull && b != TNull && c != TNull
    requires !(Shape(a) == Shape(b) == Shape(c))
    ensures Coerce(Coerce(a, b), c) == TStr && Coerce(a, Coerce(b, c)) == TStr
  {
    StrAbsorbs(a);
    StrAbsorbs(c);
    if Shape(a) != Shape(b) {
      ShapeMismatch(a, b);
      if Shape(b) != Shape(c) {
        ShapeMismatch(b, c);
      } else {
        ShapeKept(b, c);
        if Coerce(b, c) != TStr {
          ShapeMismatch(a, Coerce(b, c));
        }
      }
    } else {
      ShapeMismatch(b, c);
      ShapeKept(a, b);
      if Coerce(a, b) != TStr {
        ShapeMismatch(Coerce(a, b), c);
      }
    }
  }

  lemma {:induction false} MergeAssociative(fs: seq<FieldType>, gs: seq<FieldType>, hs: seq<FieldType>)
    ensures MergeFieldTypes(MergeFieldTypes(fs, gs), hs) == MergeFieldTypes(fs, MergeFieldTypes(gs, hs))
    decreases FieldTypesSize(fs) + FieldTypesSize(gs) + FieldTypesSize(hs), 0
  {
    if fs != [] && gs != [] && hs != [] {
      var f, g, h := fs[0].name, gs[0].name, hs[0].name;
      Trichotomy(f, g); Trichotomy(g, h); Trichotomy(f, h);
      Asymmetric(f, g); Asymmetric(g, h); Asymmetric(f, h);
      if f == g && g == h {
        CoerceAssociative(fs[0].dtype, gs[0].dtype, hs[0].dtype);
        MergeAssociative(fs[1..], gs[1..], hs[1..]);
      } else if f == g && Less(f, h) {
        MergeAssociative(fs[1..], gs[1..], hs);
      } else if f == g {
        MergeAssociative(fs, gs, hs[1..]);
      } else if Less(f, g) && Less(f, h) {
        MergeAssociative(fs[1..], gs, hs);
      } else if Less(f, g) && f == h {
        MergeAssociative(fs[1..], gs, hs[1..]);
      } else if Less(f, g) {
        Transitive(h, f, g);
        MergeAssociative(fs, gs, hs[1..]);
      } else if g == h {
        MergeAssociative(fs, gs[1..], hs[1..]);
      } else if Less(g, h) {
        MergeAssociative(fs, gs[1..], hs);
      } else {
        Transitive(h, g, f);
        MergeAssociative(fs, gs, hs[1..]);
      }
    }
  }

  /** Null is the identity of the join. */
  lemma NullIdentity(t: DataType)
    ensures Coerce(TNull, t) == t && Coerce(t, TNull) == t
  {
  }

  /** The element type of a concatenation is the join of the parts' element types. */
  lemma {:induction false} ElemTypeConcat(vs: seq<Value>, ws: seq<Value>)
    ensures ElemType(vs + ws) == Coerce(ElemType(vs), ElemType(ws))
    decreases |ws|
  {
    if ws == [] {
      assert vs + ws == vs;
      NullIdentity(ElemType(vs));
    } else {
      var init, last := ws[..|ws| - 1], ws[|ws| - 1];
      assert (vs + ws)[..|vs + ws| - 1] == vs + init;
      ElemTypeConcat(vs, init);
      CoerceAssociative(ElemType(vs), ElemType(init), TypeOf(last));
    }
  }

  /** Folding the element types in either order of two parts gives the same type. */
  lemma ElemTypeSwap(vs: seq<Value>, ws: seq<Value>)
    ensures ElemType(vs + ws) == ElemType(ws + vs)
  {
    ElemTypeConcat(vs, ws);
    ElemTypeConcat(ws, vs);
    CoerceCommutative(ElemType(vs), ElemType(ws));
  }

  /**
    The unsigned cases of the source's tests within one family: a width with
    itself gives that width, and two widths give the wider, in either order.
  */
  lemma UnsignedWidths(w: Width, v: Width)
    ensures Coerce(TUint(w), TUint(w)) == TUint(w)
    ensures Coerce(TUint(w), TUint(v)) == TUint(Wider(w, v))
    ensures Coerce(TUint(w), TUint(v)) == Coerce(TUint(v), TUint(w))
  {
  }

  /**
    The unsigned cases of the source's tests across families: with a signed
    type or String the result is String; with Bool it is the unsigned type.
  */
  lemma UnsignedMixed(w: Width, v: Width)
    ensures Coerce(TUint(w), TInt(v)) == TStr && Coerce(TInt(v), TUint(w)) == TStr
    ensures Coerce(TUint(w), TBool) == TUint(w) && Coerce(TBool, TUint(w)) == TUint(w)
    ensures Coerce(TUint(w), TStr) == TStr && Coerce(TStr, TUint(w)) == TStr
  {
  }

  /** Concrete width cases of the tests, on the types of one-valued literals. */
  lemma UnsignedWidthExamples()
    ensures Coerce(TypeOf(U8(1)), TypeOf(U16(1))) == TUint(W16)
    ensures Coerce(TypeOf(U16(1)), TypeOf(U8(1))) == TUint(W16)
    ensures Coerce(TypeOf(U32(1)), TypeOf(U64(1))) == TUint(W64)
  {
  }

  /** Concrete cases of the tests mixing unsigned and signed literals. */
  lemma UnsignedSignedExamples()
    ensures Coerce(TypeOf(U8(1)), TypeOf(I8(1))) == TStr
    ensures Coerce(TypeOf(U64(1)), TypeOf(I64(1))) == TStr
  {
  }

  /** Concrete cases of the tests mixing an unsigned literal with Bool or String. */
  lemma UnsignedBoolStringExamples()
    ensures Coerce(TypeOf(U16(1)), TypeOf(Bool(true))) == TUint(W16)
    ensures Coerce(TypeOf(U32(1)), TypeOf(Str("bla"))) == TStr
  {
  }
}
