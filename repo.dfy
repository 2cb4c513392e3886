/**
  The record repository: a map from schema id to the builder collecting the
  records of that schema. A builder is modelled by the rows (normalized
  records) it has been given; what it does with them when it builds a batch
  is outside this model, so a batch is the builder's rows and whether a
  builder's own Build fails is a parameter.
*/
module Repo {
  import opened Wrappers
  import opened Rfield
  import opened Normalize
  import opened Schema
  import opened Records
  import opened SchemaParse

  type Row = seq<Field>

  /** The metadata reported for one non-empty builder: its schema id and how many records it holds. */
  datatype BuilderMetadata = BuilderMetadata(schemaId: string, recordCount: nat)

  /** Every row is normalized and filed under its own schema id. */
  ghost predicate Keyed(m: map<string, seq<Row>>)
  {
    forall k, i :: k in m && 0 <= i < |m[k]| ==> NormalizeRecord(m[k][i]) == m[k][i] && SchemaId(m[k][i]) == k
  }

  /** The schema ids whose builder holds at least one record. */
  function NonEmptyKeys(m: map<string, seq<Row>>): set<string>
  {
    set k | k in m && m[k] != []
  }

  /** The non-empty builders among the ids in `s`. */
  function NonEmptyIn(m: map<string, seq<Row>>, s: set<string>): set<string>
  {
    set k | k in s && k in m && m[k] != []
  }

  /**
    The builders after one record is added: the normalized record goes to the
    builder of its schema id, which is created on first sight; no other
    builder changes.
  */
  function Added(m: map<string, seq<Row>>, record: Row): (r: map<string, seq<Row>>)
    ensures SchemaId(NormalizeRecord(record)) in r
    ensures r.Keys == m.Keys + {SchemaId(NormalizeRecord(record))}
    ensures forall k :: k in m && k != SchemaId(NormalizeRecord(record)) ==> r[k] == m[k]
    ensures var id := SchemaId(NormalizeRecord(record));
      r[id] == (if id in m then m[id] else []) + [NormalizeRecord(record)]
  {
    var n := NormalizeRecord(record);
    var id := SchemaId(n);
    if id in m then m[id := m[id] + [n]] else m[id := [n]]
  }

  /** Adding a record keeps every row under its own schema id. */
  lemma AddedKeyed(m: map<string, seq<Row>>, record: Row)
    requires Keyed(m)
    ensures Keyed(Added(m, record))
  {
    NormalizeRecordIdempotent(record);
  }

  /** After an addition, the builder of the record's schema id is non-empty and no other builder changed state. */
  lemma AddedNonEmpty(m: map<string, seq<Row>>, record: Row)
    ensures NonEmptyKeys(Added(m, record)) == NonEmptyKeys(m) + {SchemaId(NormalizeRecord(record))}
  {
    var r := Added(m, record);
    var id := SchemaId(NormalizeRecord(record));
    assert r[id] != [];
    forall k | k in NonEmptyKeys(r) ensures k in NonEmptyKeys(m) + {id} {
      if k != id {
        assert k in m && r[k] == m[k];
      }
    }
  }

  /**
    Two records holding the same fields in different orders land in the same
    builder as the same row: the schema id does not depend on field order.
  */
  lemma AddedOrderInsensitive(m: map<string, seq<Row>>, record: Row, shuffled: Row)
    requires multiset(record) == multiset(shuffled)
    requires DistinctNames(record)
    ensures Added(m, record) == Added(m, shuffled)
  {
    NormalizeOrderInsensitive(record, shuffled);
  }

  /**
    The rows of one builder all have the same field names and types, as long
    as no field name contains a delimiter of the schema id format.
  */
  lemma SameBuilderSameSchema(m: map<string, seq<Row>>, k: string, i: nat, j: nat)
    requires Keyed(m) && k in m && i < |m[k]| && j < |m[k]|
    requires PlainFieldTypes(FieldTypes(m[k][i])) && PlainFieldTypes(FieldTypes(m[k][j]))
    ensures FieldTypes(m[k][i]) == FieldTypes(m[k][j])
  {
    SchemaIdDeterminesTypes(m[k][i], m[k][j]);
  }

  class RecordRepository {
    var builders: map<string, seq<Row>>

    ghost predicate Valid()
      reads this
    {
      Keyed(builders)
    }

    /** NewRecordRepository: no builders. */
    constructor ()
      ensures builders == map[] && Valid()
    {
      builders := map[];
    }

    /**
      AddRecord: normalizes the record in place, then files it under its
      schema id, in the existing builder or in a new one holding just it.
    */
    method AddRecord(record: Record)
      requires Valid()
      modifies this, record
      ensures Valid()
      ensures record.fields == NormalizeRecord(old(record.fields))
      ensures builders == Added(old(builders), old(record.fields))
      ensures record.SchemaId() in builders
    {
      ghost var before := record.fields;
      AddedKeyed(builders, record.fields);
      record.Normalize();
      var schemaId := record.SchemaId();
      if schemaId in builders {
        builders := builders[schemaId := builders[schemaId] + [record.fields]];
      } else {
        builders := builders[schemaId := [record.fields]];
      }
      assert builders == Added(old(builders), before);
    }

    /** RecordBuilderCount: the number of builders holding at least one record. */
    method RecordBuilderCount() returns (count: nat)
      ensures count == |NonEmptyKeys(builders)|
      ensures count <= |builders|
    {
      count := 0;
      var todo := builders.Keys;
      ghost var done: set<string> := {};
      while todo != {}
        invariant todo <= builders.Keys && done == builders.Keys - todo
        invariant count == |NonEmptyIn(builders, done)|
        decreases |todo|
      {
        var k :| k in todo;
        NonEmptyInStep(builders, done, k);
        if builders[k] != [] {
          count := count + 1;
        }
        done := done + {k};
        todo := todo - {k};
      }
      assert NonEmptyIn(builders, done) == NonEmptyKeys(builders);
      assert NonEmptyKeys(builders) <= builders.Keys;
      SubsetCard(NonEmptyKeys(builders), builders.Keys);
    }

    /**
      Build: one batch per non-empty builder, keyed by its schema id, unless
      the build of a non-empty builder fails (`failing` gives the error of each
      builder whose build fails): then the result is that error and no batches.
      Empty builders are skipped, so their failure does not matter. Building a
      builder drains it, so after a successful Build no builder is non-empty
      (RecordBuilderCount is 0); after a failure every builder is either
      unchanged or drained, and the failing one is unchanged.
    */
    method Build(failing: map<string, string>) returns (r: Result<map<string, seq<Row>>, string>)
      requires Valid()
      modifies this
      ensures Valid()
      ensures builders.Keys == old(builders).Keys
      ensures r.Ok? <==> forall k :: k in NonEmptyKeys(old(builders)) ==> k !in failing
      ensures r.Ok? ==> r.value.Keys == NonEmptyKeys(old(builders))
      ensures r.Ok? ==> forall k :: k in r.value ==> r.value[k] == old(builders)[k]
      ensures r.Ok? ==> forall k :: k in builders ==> builders[k] == []
      ensures r.Ok? ==> NonEmptyKeys(builders) == {}
      ensures r.Err? ==> exists k :: k in NonEmptyKeys(old(builders)) && k in failing && r.error == failing[k] &&
                                     builders[k] == old(builders)[k]
      ensures forall k :: k in builders ==> builders[k] == old(builders)[k] || builders[k] == []
    {
      var batches: map<string, seq<Row>> := map[];
      var todo := builders.Keys;
      ghost var before := builders;
      while todo != {}
        invariant todo <= before.Keys
        invariant builders == Drained(before, todo)
        invariant batches.Keys == NonEmptyIn(before, before.Keys - todo)
        invariant forall k :: k in batches ==> k in before && batches[k] == before[k]
        invariant forall k :: k in NonEmptyIn(before, before.Keys - todo) ==> k !in failing
        decreases |todo|
      {
        var k :| k in todo;
        DrainStep(before, todo, k);
        if builders[k] != [] {
          if k in failing {
            assert k in NonEmptyKeys(before);
            DrainedKeyed(before, todo);
            return Err(failing[k]);
          }
          batches := batches[k := builders[k]];
          builders := builders[k := []];
        }
        todo := todo - {k};
      }
      assert before.Keys - todo == before.Keys;
      DrainedKeyed(before, todo);
      DrainedEmpty(before);
      return Ok(batches);
    }

    /**
      Optimize: every builder, empty or not, is optimized; `optimize` stands
      for the builder's own Optimize and may reorder or drop rows but adds
      none. The set of schema ids does not change.
    */
    method Optimize(optimize: seq<Row> -> seq<Row>)
      requires Valid()
      requires forall rows :: multiset(optimize(rows)) <= multiset(rows)
      modifies this
      ensures Valid()
      ensures builders.Keys == old(builders).Keys
      ensures forall k :: k in builders ==> builders[k] == optimize(old(builders)[k])
    {
      var todo := builders.Keys;
      ghost var before := builders;
      while todo != {}
        invariant todo <= builders.Keys && builders.Keys == before.Keys
        invariant forall k :: k in builders ==> builders[k] == if k in todo then before[k] else optimize(before[k])
        invariant Valid()
        decreases |todo|
      {
        var k :| k in todo;
        OptimizedKeyed(builders, k, optimize(builders[k]));
        builders := builders[k := optimize(builders[k])];
        todo := todo - {k};
      }
    }

    /** Metadata: one entry per non-empty builder, with its schema id and record count. */
    method Metadata() returns (md: seq<BuilderMetadata>)
      ensures |md| == |NonEmptyKeys(builders)|
      ensures Ids(md) == NonEmptyKeys(builders)
      ensures Describes(builders, md)
    {
      md := [];
      var todo := builders.Keys;
      ghost var done: set<string> := {};
      while todo != {}
        invariant todo <= builders.Keys && done == builders.Keys - todo
        invariant MetadataSoFar(builders, done, md)
        decreases |todo|
      {
        var k :| k in todo;
        if builders[k] != [] {
          var entry := BuilderMetadata(k, |builders[k]|);
          MetadataStep(builders, done, md, entry);
          md := md + [entry];
        } else {
          NonEmptyInStep(builders, done, k);
        }
        done := done + {k};
        todo := todo - {k};
      }
      assert NonEmptyIn(builders, done) == NonEmptyKeys(builders);
    }
  }

  /** The metadata gathered after looking at the schema ids in `done`. */
  predicate MetadataSoFar(m: map<string, seq<Row>>, done: set<string>, md: seq<BuilderMetadata>)
  {
    Ids(md) == NonEmptyIn(m, done) && |md| == |NonEmptyIn(m, done)| && Describes(m, md)
  }

  lemma MetadataStep(m: map<string, seq<Row>>, done: set<string>, md: seq<BuilderMetadata>, e: BuilderMetadata)
    requires MetadataSoFar(m, done, md)
    requires e.schemaId in m && e.schemaId !in done && m[e.schemaId] != []
    requires e.recordCount == |m[e.schemaId]|
    ensures MetadataSoFar(m, done + {e.schemaId}, md + [e])
  {
    NonEmptyInStep(m, done, e.schemaId);
    DescribesSnoc(m, md, e);
  }

  /** Looking at one more schema id adds it to the non-empty ones when its builder holds records. */
  lemma NonEmptyInStep(m: map<string, seq<Row>>, done: set<string>, k: string)
    requires k in m && k !in done
    ensures k !in NonEmptyIn(m, done)
    ensures NonEmptyIn(m, done + {k}) == if m[k] != [] then NonEmptyIn(m, done) + {k} else NonEmptyIn(m, done)
  {
  }

  /** The schema ids named by a metadata list. */
  function Ids(md: seq<BuilderMetadata>): set<string>
  {
    set i | 0 <= i < |md| :: md[i].schemaId
  }

  /** Each entry names a distinct builder and carries that builder's record count. */
  predicate Describes(m: map<string, seq<Row>>, md: seq<BuilderMetadata>)
  {
    (forall i :: 0 <= i < |md| ==> md[i].schemaId in m && md[i].recordCount == |m[md[i].schemaId]|) &&
    (forall i, j :: 0 <= i < j < |md| ==> md[i].schemaId != md[j].schemaId)
  }

  lemma DescribesSnoc(m: map<string, seq<Row>>, md: seq<BuilderMetadata>, e: BuilderMetadata)
    requires Describes(m, md)
    requires e.schemaId in m && e.recordCount == |m[e.schemaId]| && e.schemaId !in Ids(md)
    ensures Describes(m, md + [e])
    ensures Ids(md + [e]) == Ids(md) + {e.schemaId}
  {
    IdsSnoc(md, e);
    forall i | 0 <= i < |md| ensures md[i].schemaId != e.schemaId {
      assert md[i].schemaId in Ids(md);
    }
  }

  lemma IdsSnoc(md: seq<BuilderMetadata>, e: BuilderMetadata)
    ensures Ids(md + [e]) == Ids(md) + {e.schemaId}
  {
    assert (md + [e])[|md|] == e;
    forall x | x in Ids(md) ensures x in Ids(md + [e]) {
      var i :| 0 <= i < |md| && md[i].schemaId == x;
      assert (md + [e])[i] == md[i];
    }
  }

  lemma {:induction false} SubsetCard(a: set<string>, b: set<string>)
    requires a <= b
    ensures |a| <= |b|
  {
    if a != {} {
      var x :| x in a;
      SubsetCard(a - {x}, b - {x});
    }
  }

  /** The builders once those outside `todo` have been built and drained. */
  function Drained(m: map<string, seq<Row>>, todo: set<string>): (r: map<string, seq<Row>>)
    ensures r.Keys == m.Keys
    ensures forall k :: k in r ==> r[k] == m[k] || r[k] == []
  {
    map k | k in m :: if k in todo then m[k] else []
  }

  /** Draining one more builder changes that builder only, and nothing when it is already empty. */
  lemma DrainStep(m: map<string, seq<Row>>, todo: set<string>, k: string)
    requires k in todo && k in m
    ensures Drained(m, todo - {k}) == Drained(m, todo)[k := []]
    ensures m[k] == [] ==> Drained(m, todo - {k}) == Drained(m, todo)
  {
  }

  /** Draining keeps every row under its own schema id. */
  lemma DrainedKeyed(m: map<string, seq<Row>>, todo: set<string>)
    requires Keyed(m)
    ensures Keyed(Drained(m, todo))
  {
  }

  /** Once every builder is drained, none is non-empty. */
  lemma DrainedEmpty(m: map<string, seq<Row>>)
    ensures NonEmptyKeys(Drained(m, {})) == {}
  {
  }

  /** Reordering or dropping one builder's rows keeps every row under its own schema id. */
  lemma OptimizedKeyed(m: map<string, seq<Row>>, k: string, rows: seq<Row>)
    requires Keyed(m) && k in m
    requires multiset(rows) <= multiset(m[k])
    ensures Keyed(m[k := rows])
  {
    forall i | 0 <= i < |rows|
      ensures NormalizeRecord(rows[i]) == rows[i] && SchemaId(rows[i]) == k
    {
      assert rows[i] in multiset(rows);
      assert rows[i] in multiset(m[k]);
      var j :| 0 <= j < |m[k]| && m[k][j] == rows[i];
    }
  }
}
