/**
  Reading a schema id back. A parser for the `name:Type` format shows that,
  as long as no field name contains one of the format's delimiters, the id
  of a record determines the types of all its fields: two records share a
  builder in the repository exactly when they have the same schema.
*/
module SchemaParse {
  import opened Wrappers
  import opened Rfield
  import opened Schema

  /** What a parser recognized at the start of its input, and the input left after it. */
  datatype Parsed<T> = Parsed(value: T, rest: string)

  /** The characters that separate the parts of a schema id. */
  predicate Delimiter(c: char)
  {
    c == ':' || c == ',' || c == '{' || c == '}' || c == '[' || c == ']'
  }

  predicate PlainName(n: string)
  {
    forall i :: 0 <= i < |n| ==> !Delimiter(n[i])
  }

  /** Every field name in the type, at every depth, is free of delimiters. */
  predicate PlainType(t: DataType)
  {
    match t
    case TList(e) => PlainType(e)
    case TStruct(fs) => PlainFieldTypes(fs)
    case _ => true
  }

  predicate PlainFieldTypes(fs: seq<FieldType>)
  {
    forall i :: 0 <= i < |fs| ==> PlainName(fs[i].name) && PlainType(fs[i].dtype)
  }

  /** A field name: the characters before the first `:`, which is consumed. */
  function ParseName(s: string): (r: Option<Parsed<string>>)
    ensures r.Some? ==> |r.value.rest| < |s|
  {
    if s == [] then None
    else if s[0] == ':' then Some(Parsed("", s[1..]))
    else if Delimiter(s[0]) then None
    else
      match ParseName(s[1..])
      case None => None
      case Some(p) => Some(Parsed([s[0]] + p.value, p.rest))
  }

  /** The digits of an integer width: `8`, `16`, `32` or `64`. */
  function ParseWidth(s: string): (r: Option<Parsed<Width>>)
    ensures r.Some? ==> |r.value.rest| < |s|
  {
    if s == [] then None
    else if s[0] == '8' then Some(Parsed(W8, s[1..]))
    else if |s| < 2 then None
    else if s[0] == '1' && s[1] == '6' then Some(Parsed(W16, s[2..]))
    else if s[0] == '3' && s[1] == '2' then Some(Parsed(W32, s[2..]))
    else if s[0] == '6' && s[1] == '4' then Some(Parsed(W64, s[2..]))
    else None
  }

  /** A scalar tag: `I` or `U` with a width, or one of the three-letter tags. */
  function ParseScalar(s: string): (r: Option<Parsed<DataType>>)
    ensures r.Some? ==> |r.value.rest| < |s|
  {
    if s == [] then None
    else if s[0] == 'I' || s[0] == 'U' then
      match ParseWidth(s[1..])
      case None => None
      case Some(w) => Some(Parsed(if s[0] == 'I' then TInt(w.value) else TUint(w.value), w.rest))
    else if |s| < 3 then None
    else if s[..3] == "Nul" then Some(Parsed(TNull, s[3..]))
    else if s[..3] == "Bol" then Some(Parsed(TBool, s[3..]))
    else if s[..3] == "F32" then Some(Parsed(TFloat(FW32), s[3..]))
    else if s[..3] == "F64" then Some(Parsed(TFloat(FW64), s[3..]))
    else if s[..3] == "Str" then Some(Parsed(TStr, s[3..]))
    else if s[..3] == "Bin" then Some(Parsed(TBinary, s[3..]))
    else None
  }

  /** A type: `[Type]`, `{fields}` or a scalar tag. */
  function ParseType(s: string): (r: Option<Parsed<DataType>>)
    ensures r.Some? ==> |r.value.rest| < |s|
    decreases |s|, 3
  {
    if s == [] then None
    else if s[0] == '[' then
      match ParseType(s[1..])
      case None => None
      case Some(e) =>
        if e.rest != [] && e.rest[0] == ']' then Some(Parsed(TList(e.value), e.rest[1..])) else None
    else if s[0] == '{' then
      match ParseFields(s[1..])
      case None => None
      case Some(fs) =>
        if fs.rest != [] && fs.rest[0] == '}' then Some(Parsed(TStruct(fs.value), fs.rest[1..])) else None
    else ParseScalar(s)
  }

  /** Zero fields when the input ends or a struct closes, otherwise a comma-separated list of fields. */
  function ParseFields(s: string): (r: Option<Parsed<seq<FieldType>>>)
    ensures r.Some? ==> |r.value.rest| <= |s|
    decreases |s|, 2
  {
    if s == [] || s[0] == '}' then Some(Parsed([], s))
    else ParseFieldList(s)
  }

  function ParseFieldList(s: string): (r: Option<Parsed<seq<FieldType>>>)
    ensures r.Some? ==> |r.value.rest| < |s|
    decreases |s|, 1
  {
    match ParseField(s)
    case None => None
    case Some(f) =>
      if f.rest != [] && f.rest[0] == ',' then
        match ParseFieldList(f.rest[1..])
        case None => None
        case Some(more) => Some(Parsed([f.value] + more.value, more.rest))
      else Some(Parsed([f.value], f.rest))
  }

  function ParseField(s: string): (r: Option<Parsed<FieldType>>)
    ensures r.Some? ==> |r.value.rest| < |s|
    decreases |s|, 0
  {
    match ParseName(s)
    case None => None
    case Some(n) =>
      match ParseType(n.rest)
      case None => None
      case Some(t) => Some(Parsed(FieldType(n.value, t.value), t.rest))
  }

  /** The field types a whole schema id stands for, if it is well formed. */
  function ParseSchemaId(id: string): Option<seq<FieldType>>
  {
    match ParseFields(id)
    case Some(p) => if p.rest == [] then Some(p.value) else None
    case None => None
  }

  lemma {:induction false} NameRoundTrip(n: string, rest: string)
    requires PlainName(n)
    ensures ParseName(n + ":" + rest) == Some(Parsed(n, rest))
  {
    if n != [] {
      assert (n + ":" + rest)[1..] == n[1..] + ":" + rest;
      NameRoundTrip(n[1..], rest);
      assert [n[0]] + n[1..] == n;
    } else {
      assert (n + ":" + rest)[1..] == rest;
    }
  }

  lemma WidthRoundTrip(w: Width, rest: string)
    ensures ParseWidth(WidthDigits(w) + rest) == Some(Parsed(w, rest))
  {
    var s := WidthDigits(w) + rest;
    if w == W8 {
      assert s[1..] == rest;
    } else {
      assert s[2..] == rest;
    }
  }

  lemma ScalarRoundTrip(t: DataType, rest: string)
    requires !t.TList? && !t.TStruct?
    ensures ParseScalar(ScalarTag(t) + rest) == Some(Parsed(t, rest))
  {
    var s := ScalarTag(t) + rest;
    if t.TInt? || t.TUint? {
      assert s[1..] == WidthDigits(t.w) + rest;
      WidthRoundTrip(t.w, rest);
    } else {
      assert s[..3] == ScalarTag(t) && s[3..] == rest;
    }
  }

  /** A type written out and followed by anything is read back, leaving exactly what followed. */
  lemma {:induction false} TypeRoundTrip(t: DataType, rest: string)
    requires PlainType(t)
    ensures ParseType(TypeString(t) + rest) == Some(Parsed(t, rest))
  {
    match t
    case TList(e) =>
      TypeRoundTrip(e, "]" + rest);
      ListStep(e, rest);
    case TStruct(fs) =>
      FieldsRoundTrip(fs, "}" + rest);
      StructStep(fs, rest);
    case _ =>
      ScalarRoundTrip(t, rest);
  }

  lemma ListStep(e: DataType, rest: string)
    requires ParseType(TypeString(e) + ("]" + rest)) == Some(Parsed(e, "]" + rest))
    ensures ParseType(TypeString(TList(e)) + rest) == Some(Parsed(TList(e), rest))
  {
    var inner := TypeString(e) + ("]" + rest);
    var s := TypeString(TList(e)) + rest;
    assert s[0] == '[' && s[1..] == inner by {
      assert s == "[" + inner;
    }
    CloseRest(']', rest);
  }

  lemma CloseRest(c: char, rest: string)
    ensures ([c] + rest)[0] == c && ([c] + rest)[1..] == rest
  {
  }

  lemma StructStep(fs: seq<FieldType>, rest: string)
    requires ParseFields(FieldsString(fs) + ("}" + rest)) == Some(Parsed(fs, "}" + rest))
    ensures ParseType(TypeString(TStruct(fs)) + rest) == Some(Parsed(TStruct(fs), rest))
  {
    var inner := FieldsString(fs) + ("}" + rest);
    var s := TypeString(TStruct(fs)) + rest;
    assert s[0] == '{' && s[1..] == inner by {
      assert s == "{" + inner;
    }
    CloseRest('}', rest);
  }

  /** Fields written out and followed by the end of the input or a closing brace are read back. */
  lemma {:induction false} FieldsRoundTrip(fs: seq<FieldType>, rest: string)
    requires PlainFieldTypes(fs)
    requires rest == [] || rest[0] == '}'
    ensures ParseFields(FieldsString(fs) + rest) == Some(Parsed(fs, rest))
    decreases fs, 1
  {
    if fs != [] {
      var tail := if |fs| == 1 then rest else "," + (FieldsString(fs[1..]) + rest);
      if |fs| == 1 {
        FieldsStringOne(fs, rest);
      } else {
        FieldsStringMore(fs, rest);
      }
      var head := FieldString(fs[0]);
      assert (head + tail)[0] == head[0];
      if fs[0].name != [] {
        assert head[0] == fs[0].name[0];
      }
      FieldListRoundTrip(fs, rest);
    } else {
      assert FieldsString(fs) + rest == rest;
    }
  }

  /** A single field is written out alone. */
  lemma FieldsStringOne(fs: seq<FieldType>, rest: string)
    requires |fs| == 1
    ensures FieldsString(fs) + rest == FieldString(fs[0]) + rest
  {
  }

  /** The first of several fields is written out, then a comma and the others. */
  lemma FieldsStringMore(fs: seq<FieldType>, rest: string)
    requires |fs| > 1
    ensures FieldsString(fs) + rest == FieldString(fs[0]) + ("," + (FieldsString(fs[1..]) + rest))
  {
    var head := FieldString(fs[0]);
    var more := FieldsString(fs[1..]);
    assert FieldsString(fs) == head + "," + more;
    Regroup(head, ",", more, rest);
  }

  lemma Regroup(a: string, b: string, c: string, d: string)
    ensures a + b + c + d == a + (b + (c + d))
  {
  }

  lemma {:induction false} FieldListRoundTrip(fs: seq<FieldType>, rest: string)
    requires fs != [] && PlainFieldTypes(fs)
    requires rest == [] || rest[0] != ','
    ensures ParseFieldList(FieldsString(fs) + rest) == Some(Parsed(fs, rest))
    decreases fs, 0
  {
    if |fs| == 1 {
      FieldRoundTrip(fs[0], rest);
      OneFieldStep(fs, rest);
    } else {
      FieldRoundTrip(fs[0], "," + (FieldsString(fs[1..]) + rest));
      PlainTail(fs);
      FieldListRoundTrip(fs[1..], rest);
      MoreFieldsStep(fs, rest);
    }
  }

  lemma OneFieldStep(fs: seq<FieldType>, rest: string)
    requires |fs| == 1 && (rest == [] || rest[0] != ',')
    requires ParseField(FieldString(fs[0]) + rest) == Some(Parsed(fs[0], rest))
    ensures ParseFieldList(FieldsString(fs) + rest) == Some(Parsed(fs, rest))
  {
    FieldsStringOne(fs, rest);
    assert [fs[0]] == fs;
  }

  lemma MoreFieldsStep(fs: seq<FieldType>, rest: string)
    requires |fs| > 1
    requires ParseField(FieldString(fs[0]) + ("," + (FieldsString(fs[1..]) + rest)))
          == Some(Parsed(fs[0], "," + (FieldsString(fs[1..]) + rest)))
    requires ParseFieldList(FieldsString(fs[1..]) + rest) == Some(Parsed(fs[1..], rest))
    ensures ParseFieldList(FieldsString(fs) + rest) == Some(Parsed(fs, rest))
  {
    var tail := "," + (FieldsString(fs[1..]) + rest);
    FieldsStringMore(fs, rest);
    assert tail[1..] == FieldsString(fs[1..]) + rest;
    assert [fs[0]] + fs[1..] == fs;
  }

  lemma {:induction false} FieldRoundTrip(f: FieldType, rest: string)
    requires PlainName(f.name) && PlainType(f.dtype)
    ensures ParseField(FieldString(f) + rest) == Some(Parsed(f, rest))
    decreases f
  {
    assert FieldString(f) + rest == f.name + ":" + (TypeString(f.dtype) + rest);
    NameRoundTrip(f.name, TypeString(f.dtype) + rest);
    TypeRoundTrip(f.dtype, rest);
  }

  lemma PlainTail(fs: seq<FieldType>)
    requires fs != [] && PlainFieldTypes(fs)
    ensures PlainFieldTypes(fs[1..])
  {
    forall i | 0 <= i < |fs[1..]| ensures PlainName(fs[1..][i].name) && PlainType(fs[1..][i].dtype) {
      assert fs[1..][i] == fs[i + 1];
    }
  }

  /** The schema id of a record whose names are free of delimiters reads back as its field types. */
  lemma SchemaIdRoundTrip(fs: seq<Field>)
    requires PlainFieldTypes(FieldTypes(fs))
    ensures ParseSchemaId(SchemaId(fs)) == Some(FieldTypes(fs))
  {
    FieldsRoundTrip(FieldTypes(fs), "");
    assert SchemaId(fs) + "" == SchemaId(fs);
  }

  /** Two such records share a schema id only when all their field names and types agree. */
  lemma SchemaIdDeterminesTypes(fs: seq<Field>, gs: seq<Field>)
    requires PlainFieldTypes(FieldTypes(fs)) && PlainFieldTypes(FieldTypes(gs))
    requires SchemaId(fs) == SchemaId(gs)
    ensures FieldTypes(fs) == FieldTypes(gs)
  {
    SchemaIdRoundTrip(fs);
    SchemaIdRoundTrip(gs);
  }

  /** A record with one string field named `a:I8,b`. */
  const DelimitedName := [Field("a:I8,b", Str(""))]
  /** A record with an I8 field `a` and a string field `b`. */
  const TwoFields := [Field("a", I8(0)), Field("b", Str(""))]

  lemma CollidingTypes()
    ensures FieldTypes(DelimitedName) == [FieldType("a:I8,b", TStr)]
    ensures FieldTypes(TwoFields) == [FieldType("a", TInt(W8)), FieldType("b", TStr)]
  {
    assert DelimitedName[1..] == [];
    assert TwoFields[1..] == [Field("b", Str(""))] && TwoFields[1..][1..] == [];
    assert FieldTypes(TwoFields[1..]) == [FieldType("b", TStr)];
  }

  lemma CollidingIds()
    ensures SchemaId(DelimitedName) == "a:I8,b" + ":" + "Str"
    ensures SchemaId(TwoFields) == "a" + ":" + "I8" + "," + ("b" + ":" + "Str")
  {
    CollidingTypes();
    var ts := FieldTypes(TwoFields);
    assert ts[1..] == [FieldType("b", TStr)];
    assert FieldsString(ts[1..]) == "b" + ":" + "Str";
  }

  /**
    Without the restriction on names the id is ambiguous: a single string
    field named `a:I8,b` and the two fields `a` (I8) and `b` (string) have the
    same id `a:I8,b:Str`.
  */
  lemma DelimiterInNameCollides()
    ensures SchemaId(DelimitedName) == SchemaId(TwoFields)
    ensures FieldTypes(DelimitedName) != FieldTypes(TwoFields)
  {
    CollidingTypes();
    CollidingIds();
    assert "a:I8,b" + ":" + "Str" == "a" + ":" + "I8" + "," + ("b" + ":" + "Str");
  }
}
