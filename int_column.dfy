/**
  The signed integer columns I8Column .. I64Column: a named, append-only
  buffer of nullable slots of one width, drained into an array when the
  record batch is built. One class stands for the four Go types; its
  `width` is the column kind.
*/
module IntColumns {
  import opened Wrappers
  import opened Rfield
  import opened Slots

  class IntColumn {
    const name: string
    const width: Width
    var data: seq<Slot>

    /** Every stored slot fits the column's width (the Go slots are *int8 .. *int64). */
    ghost predicate Valid()
      reads this
    {
      forall i :: 0 <= i < |data| && data[i].Some? ==> InSignedRange(width, data[i].value)
    }

    /** MakeI8Column .. MakeI64Column: a named column with no slots. */
    constructor (name: string, width: Width)
      ensures this.name == name && this.width == width
      ensures data == [] && Valid()
    {
      this.name := name;
      this.width := width;
      data := [];
    }

    /** The Arrow type of the column: the signed integer type of its width. */
    function Type(): DataType
    {
      TInt(width)
    }

    function Len(): nat
      reads this
    {
      |data|
    }

    /** Appends one slot at the end; the earlier slots stay as they were. */
    method Push(slot: Slot)
      requires Valid()
      requires slot.Some? ==> InSignedRange(width, slot.value)
      modifies this
      ensures data == old(data) + [slot]
      ensures Len() == old(Len()) + 1
      ensures Valid()
    {
      data := data + [slot];
    }

    /** Truncates to no slots; the name and width are constants. */
    method Clear()
      modifies this
      ensures data == [] && Len() == 0
      ensures Valid()
    {
      data := data[..0];
    }

    /** The descriptor of the column in the Arrow schema. */
    function NewArrowField(): (f: ArrowField)
      ensures f.name == name && f.dtype == Type()
    {
      ArrowField(name, TInt(width))
    }

    /**
      Converts and appends the values in order. A value that does not convert
      is a fatal error in the source: the model stops there and reports its
      index, with the slots of the values before it already appended.
    */
    method PushFromValues(values: seq<Value>) returns (failedAt: Option<nat>)
      requires Valid()
      modifies this
      ensures Valid()
      ensures failedAt.None? ==>
        (forall i :: 0 <= i < |values| ==> Convertible(values[i], true, width)) &&
        data == old(data) + ConvertAll(values, true, width)
      ensures failedAt.Some? ==>
        failedAt.value < |values| && !Convertible(values[failedAt.value], true, width) &&
        (forall i :: 0 <= i < failedAt.value ==> Convertible(values[..failedAt.value][i], true, width)) &&
        data == old(data) + ConvertAll(values[..failedAt.value], true, width)
    {
      var k := 0;
      while k < |values|
        invariant 0 <= k <= |values|
        invariant forall i :: 0 <= i < k ==> Convertible(values[..k][i], true, width)
        invariant data == old(data) + ConvertAll(values[..k], true, width)
        invariant Valid()
      {
        var slot := AsInteger(values[k], true, width);
        if slot.None? {
          return Some(k);
        }
        if slot.value.Some? {
          ConvertedInRange(values[k], true, width);
        }
        ConvertAllSnoc(values[..k], values[k], true, width);
        assert values[..k + 1] == values[..k] + [values[k]];
        data := data + [slot.value];
        k := k + 1;
      }
      assert values[..k] == values;
      return None;
    }

    /**
      Drains the column: one array entry per slot in order, null exactly for
      the nil slots, then the column is cleared.
    */
    method NewArray() returns (arr: IntArray)
      requires Valid()
      modifies this
      ensures arr == Finalize(Type(), old(data))
      ensures data == [] && Valid()
    {
      var valid: seq<bool> := [];
      var values: seq<int> := [];
      for i := 0 to |data|
        invariant |valid| == |values| == i
        invariant forall j :: 0 <= j < i ==> valid[j] == data[j].Some?
        invariant forall j :: 0 <= j < i ==> values[j] == if data[j].Some? then data[j].value else 0
      {
        match data[i]
        case None =>
          valid := valid + [false];
          values := values + [0];
        case Some(x) =>
          valid := valid + [true];
          values := values + [x];
      }
      arr := IntArray(Type(), valid, values);
      Clear();
    }

    /** I64Column.Build: the field descriptor and the drained array, never an error. */
    method Build() returns (f: ArrowField, arr: IntArray)
      requires width == W64 && Valid()
      modifies this
      ensures f == ArrowField(name, TInt(W64))
      ensures arr == Finalize(TInt(W64), old(data))
      ensures data == [] && Valid()
    {
      f := NewArrowField();
      arr := NewArray();
    }
  }
}
