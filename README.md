# otel-arrow-adapter: the columnar accumulation core, in Dafny

This project models the in-memory engine that the OTLP-to-Arrow adapter uses to collect
records into columns before they become Arrow record batches:

- **typed column buffers** (`air/column`): the signed and unsigned integer columns
  `I8Column`..`I64Column` and `U8Column`..`U64Column`, append-only buffers of nullable slots;
- **the record batch builder's column container** (`rbb`): `Columns`, with fifteen per-kind
  lists of columns addressed by `FieldPath`s, and its metadata and dictionary statistics;
- **the record repository** (`air/repo.go`): a map from schema id to the builder that
  collects the records of that schema;
- **the record value model** (`air/rfield`, `air/record.go`), whose implementations are not part of this model.
  Their behaviour is the one the record tests and the coercion tests fix:
  - type coercion (`CoerceDataTypes`);
  - recursive sort-by-name normalization;
  - the `name:Type` schema id;
  - lookup by child-index path;
  - multi-key comparison.

Modules:

| file | module | contents |
|---|---|---|
| wrappers.dfy | Wrappers | `Option`, `Result` |
| strorder.dfy | StrOrder | lexicographic order on code points, which agrees with Go's byte-wise `<` on valid UTF-8 strings |
| value.dfy | Rfield | `Value`, `Field`, `DataType`, `Coerce`, `TypeOf`, `ElemType`, integer conversion |
| coercion.dfy | Coercion | the coercion lattice: idempotence, commutativity, associativity, least upper bound, the cases the coercion tests assert |
| normalize.dfy | Normalize | normalization, its sortedness, idempotence and order-insensitivity |
| schema.dfy, schema_parse.dfy | Schema, SchemaParse | the schema id string and a parser that inverts it |
| path.dfy, path_tests.dfy | Paths, PathTests | `ValueByPath`, comparison, and the tests' lookups |
| record.dfy, record_tests.dfy | Records, RecordTests | the `Record` class and the normalize / schema-id tests |
| slots.dfy, int_column.dfy, uint_column.dfy | Slots, IntColumns, UintColumns | column buffers |
| rbb_columns.dfy, rbb_layout.dfy, rbb_stats.dfy | RbbColumns, RbbLayout, RbbStats | `CreateColumn` / `UpdateColumn`, path layout, metadata and statistics |
| repo.dfy | Repo | `RecordRepository` |

State that the source mutates in place is modelled as classes:

- `IntColumn` and `UintColumn` have a `data: seq<Option<int>>` field;
- `Record` has `fields`;
- `RecordRepository` has `builders: map<string, seq<Row>>`.

Their methods carry `modifies` clauses and state the whole new state.

The rbb `Columns` is a Go value type that a `StructColumn` embeds by value, so it is a datatype:

- `CreateColumn` and `UpdateColumn` are methods with the loops of the source, proved equal to the recursive functions `CreateSpec` and `UpdateSpec`;
- `Metadata` and `DictionaryStats` are loops proved equal to `MetadataSpec` and `StatsSpec`.

## Model

| member | source | states |
|---|---|---|
| IntColumns.IntColumn.constructor | pkg/air/column/int.go:58-87 | MakeI8Column..MakeI64Column: the column has the given name and width and no slots |
| IntColumns.IntColumn.Push | pkg/air/column/int.go:99-106 | exactly one slot is appended at the end, earlier slots and the name are unchanged, Len grows by one |
| IntColumns.IntColumn.Clear | pkg/air/column/int.go:129-131 | the column has no slots afterwards, name unchanged |
| IntColumns.IntColumn.NewArrowField | pkg/air/column/int.go:94-111 | the field descriptor carries the column's name and the signed type of its width |
| IntColumns.IntColumn.PushFromValues | pkg/air/column/int.go:133-141 | either all values convert and one converted slot per value is appended in input order, or the first value that does not convert is reported (the fatal error) with the slots of the values before it appended |
| IntColumns.IntColumn.NewArray | pkg/air/column/int.go:114-126 | the array is the slots in order, null exactly at the nil slots, and the column is empty afterwards |
| IntColumns.IntColumn.Build | pkg/air/column/int.go:290-292 | an I64 column builds the I64 field descriptor and the drained array, never an error |
| UintColumns.UintColumn.constructor | pkg/air/column/uint.go:58-87 | MakeU8Column..MakeU64Column: named column of the given width with no slots |
| UintColumns.UintColumn.Push | pkg/air/column/uint.go:99-106 | one slot appended at the end, prefix unchanged, Len grows by one |
| UintColumns.UintColumn.Clear | pkg/air/column/uint.go:129-131 | truncates to no slots without changing the name |
| UintColumns.UintColumn.NewArrowField | pkg/air/column/uint.go:94-111 | the descriptor has the column's name and the unsigned type of its width |
| UintColumns.UintColumn.PushFromValues | pkg/air/column/uint.go:133-141 | appends one converted slot per value in order, or stops at the first value that does not convert |
| UintColumns.UintColumn.NewArray | pkg/air/column/uint.go:114-126 | order and nullness are kept slot for slot, then the column is empty |
| Slots.FinalizeRoundTrip | pkg/air/column/int.go:114-126 | the finalized array has one entry per slot and reading it back gives the slots again |
| Slots.ConvertibleExactly | pkg/air/column/int.go:133-141 | a value converts into a column exactly when its type coerces into the column's type (Null to a nil slot) |
| Slots.ConvertedInRange | pkg/air/column/uint.go:133-141 | a converted value fits the column's width and signedness |
| Slots.ConvertAll | pkg/air/column/int.go:133-141 | one slot per input value, each the conversion of the value at the same index |
| Slots.ConvertAllSnoc | pkg/air/column/int.go:133-141 | converting one more value appends exactly its slot |
| RbbColumns.WithScalars | pkg/rbb/column.go:136-203 | replacing one kind's list leaves the other fourteen lists unchanged |
| RbbColumns.CreateColumn | pkg/rbb/column.go:136-255 | the method with the source's loop over struct fields gives exactly CreateSpec |
| RbbColumns.UpdateColumn | pkg/rbb/column.go:257-293 | the method with the source's loop over struct fields gives exactly UpdateSpec |
| RbbColumns.CreateScalar | pkg/rbb/column.go:136-203 | a scalar field appends one column holding its value to its kind's list, the path is that column's index (len-1), nothing else changes |
| RbbColumns.CreateString | pkg/rbb/column.go:204-214 | a string column is created with no dictionary, zero totals, the field's path and a fresh dictionary id |
| RbbColumns.NullUnsupported | pkg/rbb/column.go:252-292 | an unsupported value is an error in both CreateColumn and UpdateColumn |
| RbbColumns.UpdateScalar | pkg/rbb/column.go:257-286 | a scalar is appended to the column at the path's index in its kind's list, every other column unchanged; an index outside the list is an error |
| RbbColumns.UpdateString | pkg/rbb/column.go:279-280 | a string is appended to the string column at the path's index, nothing else changes |
| RbbColumns.UpdateStructStep | pkg/rbb/column.go:287-290 | the i-th field of a struct updates the struct column's Columns at `Children[i]`, in order, the first error stopping the loop |
| RbbColumns.UpdateEmptyStruct | pkg/rbb/column.go:287-290 | a struct without fields changes nothing |
| RbbLayout.TypeKindOf | pkg/rbb/column.go:136-203 | the kind list a scalar value goes to is determined by its type |
| RbbLayout.NoColumnsTypeOf | pkg/rbb/column.go:229-251 | whether a value makes no column is determined by its type |
| RbbLayout.IsEmptyKinds | pkg/rbb/column.go:296-298 | IsEmpty holds iff all fifteen kind lists are empty |
| RbbLayout.CreateGrows | pkg/rbb/column.go:136-255 | CreateColumn only appends: every kind list before is a prefix of the list after |
| RbbLayout.ChildrenGrows | pkg/rbb/column.go:232-240 | the loop over struct fields only appends columns and child paths |
| RbbLayout.CreateNone | pkg/rbb/column.go:229-251 | no path is returned exactly for a struct that makes no columns, and then nothing changes; a returned path comes with a non-empty Columns |
| RbbLayout.ChildrenNone | pkg/rbb/column.go:232-243 | the fresh child Columns stays empty iff no field makes a column |
| RbbLayout.CreateFits | pkg/rbb/column.go:136-251 | the returned path addresses columns of the field's type, one child path per field that makes columns |
| RbbLayout.ChildrenFits | pkg/rbb/column.go:232-240 | the child paths fit the struct fields that make columns, in order |
| RbbLayout.CreateKeepsFit | pkg/rbb/column.go:136-255 | creating a column never invalidates a path created before |
| RbbLayout.GrowsTrans | pkg/rbb/column.go:136-255 | appending columns composes |
| RbbLayout.GrowsNonEmpty | pkg/rbb/column.go:296-298 | a Columns with a column stays non-empty under appends |
| RbbLayout.FitsGrows | pkg/rbb/column.go:136-255 | a path stays valid when columns are appended |
| RbbLayout.SameLayoutRefl | pkg/rbb/column.go:257-293 | every Columns has its own layout |
| RbbLayout.SameLayoutTrans | pkg/rbb/column.go:257-293 | same-layout composes across updates |
| RbbLayout.FitsSameLayout | pkg/rbb/column.go:257-293 | a path stays valid when only data changes |
| RbbLayout.FitsChildrenSameLayout | pkg/rbb/column.go:287-290 | child paths stay valid when only data changes |
| RbbLayout.AppendLeafLayout | pkg/rbb/column.go:259-286 | appending a leaf value adds no column |
| RbbLayout.StructStepLayout | pkg/rbb/column.go:287-290 | updating a struct column's Columns in place adds no column |
| RbbLayout.UpdateLayout | pkg/rbb/column.go:257-293 | a successful UpdateColumn adds or removes no column, at any depth |
| RbbLayout.UpdateFieldsLayout | pkg/rbb/column.go:287-290 | the struct loop of UpdateColumn adds or removes no column |
| RbbLayout.FixedUpdates | pkg/rbb/column.go:287-290 | with children matched to the fields that make columns, a row of the path's type always goes in and the layout is kept |
| RbbLayout.FixedFieldsUpdate | pkg/rbb/column.go:287-290 | the corrected struct loop succeeds on fitting child paths and keeps the layout |
| RbbLayout.UpdateKeepsFit | pkg/rbb/column.go:257-293 | with the correction, a fitting path takes any row of its type and still fits |
| RbbLayout.CreateThenUpdate | pkg/rbb/column.go:136-293 | with the correction, the path CreateColumn returns takes the next row of the same type |
| RbbLayout.UpdateAsWrittenFails | pkg/rbb/column.go:229-290 | a struct with an empty struct before an I8 gets one child path, and UpdateColumn as written then fails on that same record while the corrected update succeeds |
| RbbStats.AppendScalarMeta | pkg/rbb/column.go:303-379 | one loop over a scalar kind appends one entry per column: its name, the kind's type, its data length |
| RbbStats.AppendStringMeta | pkg/rbb/column.go:380-386 | one entry per string column with its data length |
| RbbStats.AppendListMeta | pkg/rbb/column.go:394-400 | one entry per list column, with the list's type and its data length |
| RbbStats.AppendStructMeta | pkg/rbb/column.go:401-408 | one entry per struct column, length 0 and the children's metadata |
| RbbStats.Metadata | pkg/rbb/column.go:300-410 | the loops give exactly MetadataSpec: entries in fixed kind order, leaves with their data length, structs with length 0 and recursive children |
| RbbStats.StructMetaLen | pkg/rbb/column.go:401-408 | one metadata entry per struct column |
| RbbStats.KindsMetaEmpty | pkg/rbb/column.go:303-379 | the scalar-kind entries are empty iff those kind lists are empty |
| RbbStats.EmptyMetadata | pkg/rbb/column.go:296-410 | an empty Columns has no metadata |
| RbbStats.MetadataLen | pkg/rbb/column.go:300-410 | one metadata entry per top-level column |
| RbbStats.KindsEmpty | pkg/rbb/column.go:303-379 | no scalar entries means every scalar kind list is empty |
| RbbStats.MetadataNonEmpty | pkg/rbb/column.go:296-410 | no metadata means the Columns is empty |
| RbbStats.MetadataEmpty | pkg/rbb/column.go:296-410 | IsEmpty holds iff Metadata is empty |
| RbbStats.MetadataSameLayout | pkg/rbb/column.go:300-410 | updates do not change the number of metadata entries |
| RbbStats.AvgValueLengthMean | pkg/rbb/column.go:440-445 | 0 exactly when a total is zero, otherwise the mean value length (average times row count is the total length) |
| RbbStats.StatsPerStringColumn | pkg/rbb/column.go:412-453 | the statistics list has exactly one entry per string column at every depth, in visiting order; an entry is nil exactly when that column has no dictionary, and otherwise carries the column's field path, dictionary size, average value length and row count |
| RbbStats.DictionaryStatsOf | pkg/rbb/column.go:412-453 | the loops give exactly StatsSpec: string columns first, then the stats of struct columns recursively |
| RbbStats.PristineEmpty | pkg/rbb/column.go:136-255 | the empty Columns has no dictionaries and zero totals |
| RbbStats.CreatePristine | pkg/rbb/column.go:204-214 | CreateColumn keeps every string column without dictionary and with zero totals |
| RbbStats.UpdatePristine | pkg/rbb/column.go:257-293 | UpdateColumn keeps every string column without dictionary and with zero totals |
| RbbStats.PristineStatsNone | pkg/rbb/column.go:412-434 | on such Columns every dictionary statistic is nil |
| RbbStats.CreateIds | pkg/rbb/column.go:204-214 | the dictionary-id generator only moves forward and every string column's id is below it, so ids are fresh |
| Repo.RecordRepository.constructor | pkg/air/repo.go:34-40 | a new repository has no builders |
| Repo.RecordRepository.AddRecord | pkg/air/repo.go:42-51 | the record is normalized in place, its schema id is a key, only that builder changes, and a new key gets a builder holding just the record |
| Repo.Added | pkg/air/repo.go:42-51 | the keys grow by the record's schema id, other builders unchanged, the record appended to its builder |
| Repo.AddedKeyed | pkg/air/repo.go:42-51 | every row stays normalized and filed under its own schema id |
| Repo.AddedNonEmpty | pkg/air/repo.go:42-62 | the non-empty builders grow by exactly the record's schema id |
| Repo.AddedOrderInsensitive | pkg/air/repo.go:42-51 | records that differ only in field order go to the same builder |
| Repo.SameBuilderSameSchema | pkg/air/repo.go:42-51 | all rows of one builder have the same field types |
| Repo.RecordRepository.RecordBuilderCount | pkg/air/repo.go:53-62 | the loop counts exactly the non-empty builders |
| Repo.RecordRepository.Build | pkg/air/repo.go:64-78 | success iff no non-empty builder fails; then the keys are exactly the schema ids of the non-empty builders, each batch holds that builder's rows, and every builder is drained so none is non-empty afterwards; otherwise the error of a failing non-empty builder, which is left unchanged, while the others are unchanged or drained |
| Repo.RecordRepository.Optimize | pkg/air/repo.go:80-84 | every builder is optimized (rows may be reordered or dropped, never added), every row stays under its own schema id, and the set of keys is unchanged |
| Repo.RecordRepository.Metadata | pkg/air/repo.go:86-94 | one entry per non-empty builder, with its schema id and record count |
| Coercion.StrAbsorbs | pkg/air_test/record_test.go:221-265 | coercing with String gives String |
| Coercion.MergeSelf | pkg/air_test/record_test.go:242-257 | merging a struct's field types with themselves changes nothing |
| Coercion.CoerceLists | pkg/air_test/record_test.go:242-265 | two list types coerce to the list of their coerced element types |
| Coercion.CoerceStructs | pkg/air_test/record_test.go:242-265 | two struct types coerce to the union of their fields, per-field coerced |
| Coercion.CoerceIdempotent | pkg/air/value_test/uint_value_test.go:36-308 | coercing a type with itself gives that type |
| Coercion.CoerceCommutative | pkg/air/value_test/uint_value_test.go:50-116 | coercion is symmetric |
| Coercion.MergeCommutative | pkg/air_test/record_test.go:242-257 | the field-type union is symmetric |
| Coercion.WidensTransitive | pkg/air/value_test/uint_value_test.go:50-83 | the widening order on scalar types is transitive |
| Coercion.WidensAntisymmetric | pkg/air/value_test/uint_value_test.go:50-83 | the widening order is antisymmetric |
| Coercion.CoerceIsLeastUpperBound | pkg/air/value_test/uint_value_test.go:25-322 | on scalar types coercion is the least upper bound of the widening order |
| Coercion.ScalarAssociative | pkg/air_test/record_test.go:221-241 | scalar coercion is associative, so a list's element type does not depend on grouping |
| Coercion.CoerceAssociative | pkg/air_test/record_test.go:221-257 | coercion is associative on all types, lists and structs included |
| Coercion.MergeAssociative | pkg/air_test/record_test.go:242-257 | the field-type union is associative |
| Coercion.NullIdentity | pkg/air_test/record_test.go:221-241 | Null is the identity of coercion |
| Coercion.ElemTypeConcat | pkg/air_test/record_test.go:221-241 | the element type of a concatenation is the coercion of the two element types |
| Coercion.ElemTypeSwap | pkg/air_test/record_test.go:221-241 | the element type does not depend on element order |
| Coercion.UnsignedWidths | pkg/air/value_test/uint_value_test.go:50-233 | an unsigned type with itself gives itself; two unsigned widths give the wider, in either order |
| Coercion.UnsignedMixed | pkg/air/value_test/uint_value_test.go:29-322 | unsigned with signed gives String; with Bool gives the unsigned type; with String gives String |
| Coercion.UnsignedWidthExamples | pkg/air/value_test/uint_value_test.go:50-233 | the width cases the tests assert: U8,U16 and U16,U8 give U16; U32,U64 gives U64 |
| Coercion.UnsignedSignedExamples | pkg/air/value_test/uint_value_test.go:29-259 | U8,I8 and U64,I64 give String |
| Coercion.UnsignedBoolStringExamples | pkg/air/value_test/uint_value_test.go:160-247 | U16,Bool gives U16; U32,String gives String |
| StrOrder.CompareStr | pkg/air_test/record_test.go:139-207 | -1, 0, 1 exactly for less, equal, greater |
| StrOrder.Irreflexive | pkg/air_test/record_test.go:139-207 | no name sorts before itself |
| StrOrder.Asymmetric | pkg/air_test/record_test.go:139-207 | no two names sort before each other |
| StrOrder.Trichotomy | pkg/air_test/record_test.go:139-207 | any two names are ordered or equal |
| StrOrder.Transitive | pkg/air_test/record_test.go:139-207 | the name order is transitive |
| StrOrder.LessEqTotal | pkg/air_test/record_test.go:139-207 | the non-strict order is total |
| StrOrder.LessEqTransitive | pkg/air_test/record_test.go:139-207 | the non-strict order is transitive |
| StrOrder.LessEqAntisymmetric | pkg/air_test/record_test.go:139-207 | the non-strict order is antisymmetric |
| StrOrder.LessCommonPrefix | pkg/air_test/record_test.go:139-207 | a common prefix does not change the order |
| Rfield.Wider | pkg/air/value_test/uint_value_test.go:50-83 | the wider of two widths is one of them and at least as wide as both |
| Rfield.FieldTypes | pkg/air_test/record_test.go:210-269 | one field type per field, with the field's name |
| Normalize.InsertSorted | pkg/air_test/record_test.go:139-207 | inserting into a name-sorted list keeps it sorted and adds exactly the one field |
| Normalize.SortByNameSorted | pkg/air_test/record_test.go:139-207 | sorting by name gives a sorted permutation of the fields |
| Normalize.SortSorted | pkg/air_test/record_test.go:139-207 | sorting a sorted list changes nothing |
| Normalize.SortedUnique | pkg/air_test/record_test.go:139-207 | two sorted permutations of fields with distinct names are equal |
| Normalize.NormalizeFields | pkg/air_test/record_test.go:139-207 | same names in the same positions, each value normalized |
| Normalize.NormalizeList | pkg/air_test/record_test.go:139-207 | a list keeps its element order, each element normalized (structs inside lists included) |
| Normalize.NormalizeIsNormalized | pkg/air_test/record_test.go:139-207 | a normalized value is sorted by name at every struct level, inside lists too |
| Normalize.NormalizeFieldsNormalized | pkg/air_test/record_test.go:139-207 | every field value is normalized after normalization |
| Normalize.NormalizedFixpoint | pkg/air_test/record_test.go:139-207 | normalization leaves a normalized value unchanged |
| Normalize.NormalizeIdempotent | pkg/air_test/record_test.go:139-207 | normalizing twice is normalizing once |
| Normalize.NormalizeRecordIdempotent | pkg/air_test/record_test.go:139-207 | a normalized record is sorted, all normalized, and a fixpoint |
| Normalize.NormalizeOrderInsensitive | pkg/air_test/record_test.go:139-207 | records whose fields differ only in order (distinct names) normalize to the same record |
| Normalize.NormalizeFieldsIsMap | pkg/air_test/record_test.go:139-207 | normalizing fields is normalizing each field, position by position |
| Normalize.MapFieldsPermutation | pkg/air_test/record_test.go:139-207 | permuted fields map to permuted results |
| Normalize.AllNormalizedPermutation | pkg/air_test/record_test.go:139-207 | reordering normalized fields keeps them normalized |
| Normalize.DistinctNamesPermutation | pkg/air_test/record_test.go:139-207 | reordering fields keeps names distinct |
| Records.Record.constructor | pkg/air_test/record_test.go:29 | NewRecord has no fields |
| Records.Record.StringField | pkg/air_test/record_test.go:30 | appends one string field, earlier fields unchanged |
| Records.Record.StructField | pkg/air_test/record_test.go:31-57 | appends one struct field holding the given fields |
| Records.Record.Normalize | pkg/air_test/record_test.go:139-207 | the fields become the normalized record: same count, a permutation of the normalized fields, sorted at every level, and a fixpoint |
| Records.Record.SchemaId | pkg/air_test/record_test.go:263-268 | the id is empty exactly when the record has no fields |
| Records.Record.ValueByPath | pkg/air_test/record_test.go:60-99 | a one-index path selects the top-level field at that position; an empty path or an index outside finds nothing |
| Records.Record.Compare | pkg/air_test/record_test.go:102-136 | 0 exactly when every sort key reaches the same value in both records, and swapping the records negates the result |
| Records.NonEmptySchemaId | pkg/air_test/record_test.go:263-268 | the schema id is empty exactly for a record without fields |
| Paths.ValueAtConcat | pkg/air_test/record_test.go:60-99 | looking up p then q is looking up p + q |
| Paths.ValueByPathConcat | pkg/air_test/record_test.go:60-99 | a record lookup by p + q continues from the value at p |
| Paths.ValueByPathPrefix | pkg/air_test/record_test.go:60-99 | a path that finds a value has a prefix that finds one too |
| Paths.CompareValueAntisymmetric | pkg/air_test/record_test.go:125-136 | value comparison is antisymmetric and 0 exactly on equal values |
| Paths.CompareRecordsAntisymmetric | pkg/air_test/record_test.go:125-136 | swapping the records negates the multi-key comparison |
| Paths.CompareRecordsZero | pkg/air_test/record_test.go:112-122 | the comparison is 0 exactly when all keys reach equal values |
| PathTests.ValueRecordNormalized | pkg/air_test/record_test.go:26-58 | the TestValue record normalizes to the record sorted at every level |
| PathTests.ValueByPathScenario | pkg/air_test/record_test.go:60-99 | every lookup of TestValue on the normalized record gives the value the test expects |
| PathTests.CompareScenario | pkg/air_test/record_test.go:102-136 | for any records equal on key [1], they compare 0 both ways; when key [3] is smaller in the first (a hypothesis, the generated records are not built), -1 one way and 1 the other |
| SchemaParse.NameRoundTrip | pkg/air_test/record_test.go:265 | a field name without delimiters is read back from `name:` |
| SchemaParse.WidthRoundTrip | pkg/air_test/record_test.go:265 | a width's digits are read back |
| SchemaParse.ScalarRoundTrip | pkg/air_test/record_test.go:265 | a scalar type tag is read back |
| SchemaParse.TypeRoundTrip | pkg/air_test/record_test.go:265 | a type string, with `[...]` lists and `{...}` structs, is read back |
| SchemaParse.FieldsRoundTrip | pkg/air_test/record_test.go:265 | a comma-joined `name:Type` list is read back |
| SchemaParse.FieldListRoundTrip | pkg/air_test/record_test.go:265 | a non-empty field list is read back |
| SchemaParse.FieldRoundTrip | pkg/air_test/record_test.go:265 | one `name:Type` entry is read back |
| SchemaParse.SchemaIdRoundTrip | pkg/air_test/record_test.go:263-268 | the schema id of a record whose names have no delimiters parses back to its field types |
| SchemaParse.SchemaIdDeterminesTypes | pkg/air/repo.go:42-51 | two such records with the same schema id have the same field types, so one builder holds one schema |
| SchemaParse.DelimiterInNameCollides | pkg/air_test/record_test.go:263-268 | a field name containing `:` and `,` gives the same schema id as two different fields |
| RecordTests.TestNamesOrdered | pkg/air_test/record_test.go:229-257 | the test's innermost names are ordered f2_3_4_1 < f2_3_4_2 < f2_3_4_3 |
| RecordTests.NormalizeScenario | pkg/air_test/record_test.go:139-207 | for any two ordered inner names, the TestRecordNormalize record normalizes to the expected record |
| RecordTests.TestRecordNormalize | pkg/air_test/record_test.go:139-207 | the same with the test's own names |
| RecordTests.ElemTypeOfTwo | pkg/air_test/record_test.go:221-241 | the element type of a two-element list is the coercion of the two types |
| RecordTests.ScalarElemTypes | pkg/air_test/record_test.go:236-241 | the list [I8,I64] has element type I64 |
| RecordTests.MixedElemTypes | pkg/air_test/record_test.go:221-234 | [I8,I64,String] gives Str and [I8,I64,Bool] gives I64 |
| RecordTests.InnerStructsMerged | pkg/air_test/record_test.go:242-257 | the two inner structs merge into the union of their fields, I8 and Str giving Str |
| RecordTests.InnerListType | pkg/air_test/record_test.go:242-257 | the list of structs has the merged struct as its element type |
| RecordTests.FieldsStringJoined | pkg/air_test/record_test.go:265 | the fields string is the comma join of the `name:Type` entries |
| RecordTests.SchemaIdScenario | pkg/air_test/record_test.go:210-269 | for any three ordered inner names, the TestRecordSchemaId record has the expected id |
| RecordTests.TestRecordSchemaId | pkg/air_test/record_test.go:210-269 | with the test's own names, the id is the string the test expects |

## Left out

- Float columns, the Arrow runtime (builders, allocators, `arrow.DataType` construction) and `ListDataType` / `StructDataType`: a data type is the tag datatype `DataType`, float payloads are exact reals, and a finalized array is a validity sequence plus a value sequence.
- Go pointers into record values (`[]*int8`, `[]*string`) and the aliasing they allow: a slot holds the value itself.
- `air/record.go` and `air/rfield` are not part of this model. `Normalize`, `SchemaId`, `ValueByPath`, `Compare` and `CoerceDataTypes` are defined from what the record and coercion tests require.
  - The value order used by `Compare` is not fixed by those tests. The model orders values by variant first and then by payload, and a missing path sorts before any value.
  - The type tags' spelling in the schema id (`I8`, `I64`, `Str`, `[...]`, `{...}`) is taken from the expected id of the schema-id test. The other tags (`Nul`, `Bol`, `U8`..`U64`, `F32`, `F64`, `Bin`, and `I16` / `I32`) are this model's own choice; only their distinctness matters to the proved properties.
  - Normalize.SortByName is a stable insertion sort. The tests never give a record two fields with the same name, so the order of such fields is not fixed by them; since the source's sort is not part of this model, for duplicate names the model's order may differ from the source's.
- The `AsI8`..`AsU64` conversions used by `PushFromValues` are not part of this model. A value converts when its type coerces into the column's type, Null gives a nil slot and Bool gives 0 or 1. The fatal error is modelled as the index of the first value that does not convert.
- IntColumns.IntColumn.PushFromValues: a failed conversion panics in the source; the model instead returns the failing index with the earlier slots appended, which is what was appended when the panic occurred. UintColumns.UintColumn.PushFromValues likewise.
- The Go column types `I8Column`..`I64Column` (and `U8`..`U64`) are one class per signedness with the width as a constant, and the per-type `Type` method is the function `Type()` of that width.
- `RecordBuilder` is not part of this model. A builder is the sequence of normalized records (rows) it has been given.
  - Whether a builder's own `Build` fails is the parameter `failing` of `RecordRepository.Build`.
  - A builder's `Optimize` is the function parameter `optimize`.
  - Building a builder is assumed to drain it, as each column clears its data once it has produced its array (`NewArray` ends with `Clear`, `pkg/air/column/int.go:113-126`).
  - A builder's metadata is its schema id and row count.
- Repo.RecordRepository.Build: the source returns the error of the first failing builder met in Go's unspecified map order; the model promises only that the error is that of some failing non-empty builder, and that every other builder is either unchanged or drained (which ones depends on that order).
- Repo.RecordRepository.Optimize: requires that `optimize` only reorder or drop rows; a builder's own `Optimize` that added rows (or rows of another schema) is not covered.
- The schema id is ambiguous for field names that contain `:`, `,` or brackets (SchemaParse.DelimiterInNameCollides); the round trip is proved for names without them.
- The rbb `Columns` is a datatype and `CreateColumn` / `UpdateColumn` return the new value instead of updating the receiver in place; a `StructColumn` holds its `Columns` by value in the source as well.
- The rbb dictionary machinery (attaching a dictionary, `Config.Dictionaries`) is not part of this file: no dictionary is ever set, so the model proves that every dictionary statistic stays nil (RbbStats.PristineStatsNone). `DictIdGenerator` is a natural-number counter threaded through `CreateColumn`.
- RbbStats.AvgValueLengthMean: the float division is an exact real division.
- Concurrency: the source has none, and the builder map is unsynchronized.
- Benchmarking, protobuf marshalling and the OTLP-to-record producers are outside the modelled core.

## Findings

| source | as written | input that shows it | evidently intended | confidence | as-written member | corrected member |
|---|---|---|---|---|---|---|
| pkg/rbb/column.go:229-290 | CreateColumn records a child path only for struct fields that make columns, but UpdateColumn takes the child path of the i-th field as `fieldPath.Children[i]` | a struct field `r` whose fields are an empty struct `e` followed by an I8 `x`: CreateColumn gives `r` one child path, for `x`; UpdateColumn with the same record looks up `Children[1]` for `x`, which is out of range (an index panic in Go) | match children to the fields that make columns, skipping those that were given no path (RbbLayout.UpdateFixed, proved to accept every row of the path's type in RbbLayout.FixedUpdates) | not executed | RbbLayout.UpdateAsWrittenFails | RbbLayout.CreateThenUpdate |
