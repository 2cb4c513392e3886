/**
  The unsigned integer columns U8Column .. U64Column: the same append-only
  buffers as the signed ones, over unsigned slots. One class stands for the
  four Go types; its `width` is the column kind.
*/
module UintColumns {
  import opened Wrappers
  import opened Rfield
  import opened Slots

  class UintColumn {
    const name: string
    const width: Width
    var data: seq<Slot>

    /** Every stored slot fits the column's width (the Go slots are *uint8 .. *uint64). */
    ghost predicate Valid()
      reads this
    {
      forall i :: 0 <= i < |data| && data[i].Some? ==> InUnsignedRange(width, data[i].value)
    }

    /** MakeU8Column .. MakeU64Column: a named column with no slots. */
    constructor (name: string, width: Width)
      ensures this.name == name && this.width == width
      ensures data == [] && Valid()
    {
      this.name := name;
      this.width := width;
      data := [];
    }

    /** The Arrow type of the column: the unsigned integer type of its width. */
    function Type(): DataType
    {
      TUint(width)
    }

    function Len(): nat
      reads this
    {
      |data|
    }

    /** Appends one slot at the end; the earlier slots stay as they were. */
    method Push(slot: Slot)
      requires Valid()
      requires slot.Some? ==> InUnsignedRange(width, slot.value)
      modifies this
      ensures data == old(data) + [slot]
      ensures Len() == old(Len()) + 1
      ensures Valid()
    {
      data := data + [slot];
    }

    /** Truncates to no slots; the name and width are constants. */
    method Clear()
      modifies this
      ensures data == [] && Len() == 0
      ensures Valid()
    {
      data := data[..0];
    }

    /** The descriptor of the column in the Arrow schema. */
    function NewArrowField(): (f: ArrowField)
      ensures f.name == name && f.dtype == Type()
    {
      ArrowField(name, TUint(width))
    }

    /**
      Converts and appends the values in order. A value that does not convert
      is a fatal error in the source: the model stops there and reports its
      index, with the slots of the values before it already appended.
    */
    method PushFromValues(values: seq<Value>) returns (failedAt: Option<nat>)
      requires Valid()
      modifies this
      ensures Valid()
      ensures failedAt.None? ==>
        (forall i :: 0 <= i < |values| ==> Convertible(values[i], false, width)) &&
        data == old(data) + ConvertAll(values, false, width)
      ensures failedAt.Some? ==>
        failedAt.value < |values| && !Convertible(values[failedAt.value], false, width) &&
        (forall i :: 0 <= i < failedAt.value ==> Convertible(values[..failedAt.value][i], false, width)) &&
        data == old(data) + ConvertAll(values[..failedAt.value], false, width)
    {
      var k := 0;
      while k < |values|
        invariant 0 <= k <= |values|
        invariant forall i :: 0 <= i < k ==> Convertible(values[..k][i], false, width)
        invariant data == old(data) + ConvertAll(values[..k], false, width)
        invariant Valid()
      {
        var slot := AsInteger(values[k], false, width);
        if slot.None? {
          return Some(k);
        }
        if slot.value.Some? {
          ConvertedInRange(values[k], false, width);
        }
        ConvertAllSnoc(values[..k], values[k], false, width);
        assert values[..k + 1] == values[..k] + [values[k]];
        data := data + [slot.value];
        k := k + 1;
      }
      assert values[..k] == values;
      return None;
    }

    /**
      Drains the column: one array entry per slot in order, null exactly for
      the nil slots, then the column is cleared.
    */
    method NewArray() returns (arr: IntArray)
      requires Valid()
      modifies this
      ensures arr == Finalize(Type(), old(data))
      ensures data == [] && Valid()
    {
      var valid: seq<bool> := [];
      var values: seq<int> := [];
      for i := 0 to |data|
        invariant |valid| == |values| == i
        invariant forall j :: 0 <= j < i ==> valid[j] == data[j].Some?
        invariant forall j :: 0 <= j < i ==> values[j] == if data[j].Some? then data[j].value else 0
      {
        match data[i]
        case None =>
          valid := valid + [false];
          values := values + [0];
        case Some(x) =>
          valid := valid + [true];
          values := values + [x];
      }
      arr := IntArray(Type(), valid, values);
      Clear();
    }
  }
}
