/**
  The record object of the tests: a list of top-level fields built up by
  StringField / StructField, normalized in place, and queried through its
  schema id, a path lookup and a multi-key comparison.
*/
module Records {
  import opened Wrappers
  import opened Rfield
  import opened Normalize
  import opened Schema
  import opened Paths

  class Record {
    var fields: seq<Field>

    /** NewRecord: a record without fields. */
    constructor ()
      ensures fields == []
    {
      fields := [];
    }

    /** StringField: appends a string field; the earlier fields stay as they were. */
    method StringField(name: string, value: string)
      modifies this
      ensures fields == old(fields) + [Field(name, Str(value))]
    {
      fields := fields + [Field(name, Str(value))];
    }

    /** StructField: appends a struct field holding the given fields. */
    method StructField(name: string, children: seq<Field>)
      modifies this
      ensures fields == old(fields) + [Field(name, Struct(children))]
    {
      fields := fields + [Field(name, Struct(children))];
    }

    /**
      Normalize: afterwards the fields are sorted by name at every struct
      level (structs inside lists included), they are the same fields with
      normalized values, and normalizing again changes nothing.
    */
    method Normalize()
      modifies this
      ensures fields == NormalizeRecord(old(fields))
      ensures |fields| == |old(fields)|
      ensures multiset(fields) == multiset(NormalizeFields(old(fields)))
      ensures SortedByName(fields) && AllNormalized(fields)
      ensures NormalizeRecord(fields) == fields
    {
      NormalizeRecordIdempotent(fields);
      SortByNameSorted(NormalizeFields(fields));
      fields := NormalizeRecord(fields);
    }

    /** SchemaId: the `name:Type` list of the top-level fields, built from their types only. */
    function SchemaId(): (id: string)
      reads this
      ensures fields == [] <==> id == ""
    {
      NonEmptySchemaId(fields);
      Schema.SchemaId(fields)
    }

    /**
      ValueByPath: a path of length one selects a top-level field's value;
      an empty path or a first index outside the record finds nothing.
    */
    function ValueByPath(path: seq<int>): (r: Option<Value>)
      reads this
      ensures r.Some? ==> path != [] && 0 <= path[0] < |fields|
      ensures |path| == 1 && 0 <= path[0] < |fields| ==> r == Some(fields[path[0]].value)
    {
      Paths.ValueByPath(fields, path)
    }

    /**
      Compare: 0 exactly when every sort key leads to the same value (or to
      nothing) in both records, and swapping the records negates the result.
    */
    function Compare(other: Record, sortBy: seq<seq<int>>): (r: int)
      reads this, other
      ensures r == 0 <==> forall k :: k in sortBy ==> ValueByPath(k) == other.ValueByPath(k)
      ensures r == -CompareRecords(other.fields, fields, sortBy)
    {
      CompareRecordsZero(fields, other.fields, sortBy);
      CompareRecordsAntisymmetric(fields, other.fields, sortBy);
      CompareRecords(fields, other.fields, sortBy)
    }
  }

  /** A record has an empty schema id exactly when it has no fields. */
  lemma NonEmptySchemaId(fs: seq<Field>)
    ensures fs == [] <==> Schema.SchemaId(fs) == ""
  {
    if fs != [] {
      FieldStringNonEmpty(FieldTypes(fs)[0]);
    }
  }

  lemma FieldStringNonEmpty(f: FieldType)
    ensures FieldString(f) != ""
  {
    assert |FieldString(f)| >= |f.name + ":"|;
  }
}
