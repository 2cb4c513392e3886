/**
  What the integer columns share: a slot is a nullable integer, a value is
  converted into a slot by AsI8 .. AsI64 / AsU8 .. AsU64, and a column's
  slots are finalized into an array with a validity bit per slot (an absent
  slot is a null entry whose value cell holds 0).
*/
module Slots {
  import opened Wrappers
  import opened Rfield

  type Slot = Option<int>

  /** A finalized integer array: its element type, one validity bit and one value cell per entry. */
  datatype IntArray = IntArray(dtype: DataType, valid: seq<bool>, values: seq<int>)

  /** The Arrow field descriptor of a column: its name and element type. */
  datatype ArrowField = ArrowField(name: string, dtype: DataType)

  /** The array a column's slots finalize to: a null entry for each nil slot, the stored integer otherwise. */
  function Finalize(dtype: DataType, slots: seq<Slot>): IntArray
  {
    IntArray(dtype, seq(|slots|, i requires 0 <= i < |slots| => slots[i].Some?),
             seq(|slots|, i requires 0 <= i < |slots| => if slots[i].Some? then slots[i].value else 0))
  }

  /** Reads the slots back out of an array. */
  function ArraySlots(a: IntArray): seq<Slot>
    requires |a.valid| == |a.values|
  {
    seq(|a.valid|, i requires 0 <= i < |a.valid| => if a.valid[i] then Some(a.values[i]) else None)
  }

  /** Finalizing loses nothing: the slots can be read back from the array. */
  lemma FinalizeRoundTrip(dtype: DataType, slots: seq<Slot>)
    ensures |Finalize(dtype, slots).valid| == |Finalize(dtype, slots).values| == |slots|
    ensures ArraySlots(Finalize(dtype, slots)) == slots
  {
    var a := Finalize(dtype, slots);
    forall i | 0 <= i < |slots|
      ensures ArraySlots(a)[i] == slots[i]
    {
      if slots[i].Some? {
        assert a.valid[i] && a.values[i] == slots[i].value;
      }
    }
  }

  /** A value an integer column of this signedness and width accepts. */
  predicate Convertible(v: Value, signed: bool, w: Width)
  {
    AsInteger(v, signed, w).Some?
  }

  /**
    What AsI8 .. AsI64 accept: Null, Bool, and a signed integer no wider than
    the column; AsU8 .. AsU64 the same with unsigned integers.
  */
  lemma ConvertibleExactly(v: Value, signed: bool, w: Width)
    ensures Convertible(v, signed, w) <==>
      v.Null? || v.Bool? ||
      (signed && TypeOf(v).TInt? && Bits(TypeOf(v).w) <= Bits(w)) ||
      (!signed && TypeOf(v).TUint? && Bits(TypeOf(v).w) <= Bits(w))
  {
  }

  /** A converted value always fits the column's width. */
  lemma {:induction false} ConvertedInRange(v: Value, signed: bool, w: Width)
    requires AsInteger(v, signed, w).Some? && AsInteger(v, signed, w).value.Some?
    ensures signed ==> InSignedRange(w, AsInteger(v, signed, w).value.value)
    ensures !signed ==> InUnsignedRange(w, AsInteger(v, signed, w).value.value)
  {
    ConvertibleExactly(v, signed, w);
  }

  /** The slots of a sequence of values that all convert. */
  function ConvertAll(vs: seq<Value>, signed: bool, w: Width): (r: seq<Slot>)
    requires forall i :: 0 <= i < |vs| ==> Convertible(vs[i], signed, w)
    ensures |r| == |vs|
    ensures forall i :: 0 <= i < |vs| ==> Some(r[i]) == AsInteger(vs[i], signed, w)
  {
    if vs == [] then []
    else
      assert Convertible(vs[0], signed, w);
      [AsInteger(vs[0], signed, w).value] + ConvertAll(vs[1..], signed, w)
  }

  /** Converting one more value extends the converted slots by its slot. */
  lemma ConvertAllSnoc(vs: seq<Value>, v: Value, signed: bool, w: Width)
    requires forall i :: 0 <= i < |vs| ==> Convertible(vs[i], signed, w)
    requires Convertible(v, signed, w)
    ensures forall i :: 0 <= i < |vs + [v]| ==> Convertible((vs + [v])[i], signed, w)
    ensures ConvertAll(vs + [v], signed, w) == ConvertAll(vs, signed, w) + [AsInteger(v, signed, w).value]
  {
    assert forall i :: 0 <= i < |vs| ==> (vs + [v])[i] == vs[i];
    var a := ConvertAll(vs + [v], signed, w);
    var b := ConvertAll(vs, signed, w) + [AsInteger(v, signed, w).value];
    assert |a| == |b|;
    forall i | 0 <= i < |a|
      ensures a[i] == b[i]
    {
      if i < |vs| {
        assert (vs + [v])[i] == vs[i];
      }
    }
  }
}
