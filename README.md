# Helenus entity manager in Dafny

Helenus maps annotated Java classes onto Cassandra column families. This
project models the core of its entity manager in two revisions:
`EntityManagerImpl` (the trunk) and the earlier `EntityManager`.

- **The metadata builder** is the constructor. Pass 1 turns each candidate class
  declaration into an entity descriptor: the storage name, the inverse settings,
  the key field and a map of kept field descriptors. Pass 2 resolves dependent
  keys and enforces the field-count rule for inverse column families. Both
  passes visit the classes in hash order, and the model proves that success and
  the result do not depend on that order.
- **The runtime engine** is built on those descriptors:
  - key resolution (`getKey`);
  - the persist batch of flat columns and super columns, with literal or
    dynamic names;
  - the inverse-index column;
  - `getById`, `getByPropertyValue` and `getResultList`, which rebuild
    objects from rows;
  - the query shaping of `fillColumnNames`, both `getList` variants and
    `setColumnFamilyName`.
- **The field descriptor `AnnotatedField`** is a class with setters and role
  predicates.

The stand-ins:

- Annotations are option-valued records (`Annotations`).
- An object is a class name plus a map from property name to value, where a
  value is null, a scalar or a reference to another object (`Storage.Value`).
- The column store maps a column family, then a row key, to a row. A row holds
  its flat cells by column name and its super-column cells by the pair
  (super-column name, column name).
- The serialisers are a `Codec`: a partial `encode`, a `decode` by
  declared type, a `typeOf` and the empty value. The trunk stores bytes; the
  earlier revision stores strings and turns null into `""`. The codec's type
  parameter covers both.
- The random UUID of `persist` is a parameter `newKey`. Bean validation is a
  parameter `valid`.
- The rows an index query answers are a parameter `answer`.

Modules:

| file | module | contents |
|---|---|---|
| results.dfy | `Results` | `Option` and `Result` |
| java_text.dfy | `JavaText` | `toLowerCase` and `StringUtils.capitalize` |
| annotations.dfy | `Annotations` | class and field declarations |
| structure.dfy | `Structure` | the `AnnotatedField` class, its value `FieldDesc` and the entity descriptor `ClassDesc` |
| builder.dfy | `Builder` | both passes, as methods proved against specification functions |
| builder_facts.dfy | `BuilderFacts` | what the builder guarantees |
| storage.dfy | `Storage` | values, rows, the store and the order-independent batch write |
| engine.dfy | `Engine` | `getKey`, column names, the persist batch, `handleInverse`, `persist` |
| queries.dfy | `Queries` | `getById`, `getResultList`, `fillColumnNames`, `getByPropertyValue`, both `getList` |
| engine_facts.dfy | `EngineFacts` | what the engine guarantees, including the persist-then-`getById` round trip |
| findings.dfy | `Findings` | `getKey` and the dynamic column names as written, reading properties of a property's string form |

Both revisions share one model. The earlier revision's constructor
(`EntityManager.java` lines 86-210), `getKey` (375-391), `persist` (349-442),
`handleInverse` (471-493), `getById` (315-337), `getByPropertyValue` (495-537)
and `fillColumnNames` (539-546) are the same members as the trunk's. The
builder and the index conversion take a `Revision`, and the codec covers the
string storage. Where the revisions differ:

- the earlier one marks every key dependent;
- the earlier one has no null check in pass 2;
- the earlier `getByPropertyValue` reads every column with the serialiser of
  the probe value instead of the field's declared type;
- the earlier range `getList` issues nothing and returns null.

Where the code and its documentation disagree, the model follows the code:

- The doc comment of `@CassandraInverseColumnFamily` describes an inverse row
  keyed by the inverse value. The code writes the inverse column at the entity
  key (`EngineFacts.InverseWrittenAtEntityKey`).
- A dynamic column name is meant to be read from a property of the object the
  field refers to, not from another property of the entity. As written,
  `target` is the string form of the field's value, because
  `BeanUtils.getProperty` returns a `String`; the same holds for the dependee
  of a dependent key. The model reads the referenced object, and "## Findings"
  records the code as written.
- `getResultList` does not skip missing columns: `column.getValue()` on a
  missing column throws, and that ends the whole list
  (`EngineFacts.RebuiltAllShape`).
- `handleInverse` runs after `mutator.execute()`. A failure there is
  reported after the batch is already stored, so the write is partial
  (`EngineFacts.InverseFailureKeepsBatch`).
- Sub-columns of a super column are named by the literal `getColumnName()`,
  which is null for a `@CassandraSuperColumn` field itself. The model takes
  the gateway to reject a null column name. So a class with a kept
  `@CassandraSuperColumn` field, or a kept `@CassandraSuperColumnName` field
  without `@CassandraColumn`, never persists
  (`EngineFacts.SuperColumnClassNeverPersists`).

## Model

| member | source | states |
|---|---|---|
| JavaText.LowerCase | trunk/helenus/src/main/java/org/helenus/EntityManagerImpl.java:104-106 | the default storage name keeps the length of the simple class name, lowers each letter and leaves no upper-case ASCII letter |
| JavaText.Capitalize | trunk/helenus/src/main/java/org/helenus/EntityManagerImpl.java:160-166 | the default index name upper-cases the first character and keeps the rest and the length |
| Structure.AnnotatedField.constructor | trunk/helenus/src/main/java/org/helenus/EntityManagerImpl.java:112-113 | a new descriptor holds only its field; it is not a super column, not indexed and has no parent |
| Structure.AnnotatedField.SetField | trunk/helenus/src/main/java/org/helenus/structure/AnnotatedField.java:20-22 | sets the field and nothing else |
| Structure.AnnotatedField.SetColumnName | trunk/helenus/src/main/java/org/helenus/structure/AnnotatedField.java:26-28 | the getter returns the value just set; nothing else changes |
| Structure.AnnotatedField.SetSecondaryIndexName | trunk/helenus/src/main/java/org/helenus/structure/AnnotatedField.java:32-34 | the getter returns the value just set; nothing else changes |
| Structure.AnnotatedField.SetSuperColumnName | trunk/helenus/src/main/java/org/helenus/structure/AnnotatedField.java:38-40 | the getter returns the value just set; nothing else changes |
| Structure.AnnotatedField.SetSuperColumnParentName | trunk/helenus/src/main/java/org/helenus/structure/AnnotatedField.java:44-46 | the getter returns the value just set; nothing else changes |
| Structure.AnnotatedField.SetColumnNameField | trunk/helenus/src/main/java/org/helenus/structure/AnnotatedField.java:51-53 | the getter returns the value just set; nothing else changes |
| Structure.FieldDesc.IsSuperColumn | trunk/helenus/src/main/java/org/helenus/structure/AnnotatedField.java:60-62 | a super column iff a literal super-column name or a super-column name field is set; what sets them is stated by `BuilderFacts.DescribedField` |
| Structure.FieldDesc.IsSecondaryIndex | trunk/helenus/src/main/java/org/helenus/structure/AnnotatedField.java:64-66 | indexed iff an index name is set; stated for built fields by `BuilderFacts.DescribedField` |
| Structure.FieldDesc.HasSuperColumnParent | trunk/helenus/src/main/java/org/helenus/structure/AnnotatedField.java:68-70 | folded into a super column iff a parent name is set; stated for built fields by `BuilderFacts.DescribedField` |
| Structure.AnnotatedField.IsSuperColumn | trunk/helenus/src/main/java/org/helenus/structure/AnnotatedField.java:60-62 | true iff `superColumnName` or `superColumnNameField` is non-null |
| Structure.AnnotatedField.IsSecondaryIndex | trunk/helenus/src/main/java/org/helenus/structure/AnnotatedField.java:64-66 | true iff `secondaryIndexName` is non-null |
| Structure.AnnotatedField.HasSuperColumnParent | trunk/helenus/src/main/java/org/helenus/structure/AnnotatedField.java:68-70 | true iff `superColumnParentName` is non-null |
| Builder.ColumnNameOf | trunk/helenus/src/main/java/org/helenus/EntityManagerImpl.java:230-239 | null without `@CassandraColumn`, else the explicit name or the field name; stated by `BuilderFacts.DescribedField` |
| Builder.SuperColumnNameOf | trunk/helenus/src/main/java/org/helenus/EntityManagerImpl.java:218-228 | null without `@CassandraSuperColumn`, else the explicit name or the field name; stated by `BuilderFacts.DescribedField` |
| Structure.AnnotatedField.SetSuperColumnNameField | trunk/helenus/src/main/java/org/helenus/structure/AnnotatedField.java:57-59 | the getter returns the value just set; nothing else changes |
| Builder.NewFieldDescriptor | trunk/helenus/src/main/java/org/helenus/EntityManagerImpl.java:145-166 | the setter calls on a fresh `AnnotatedField` leave exactly the described field; what that description holds is `BuilderFacts.DescribedField` |
| Builder.ScanOneField | trunk/helenus/src/main/java/org/helenus/EntityManagerImpl.java:112-176 | one field-loop step: the first failing check in source order gives its error; otherwise the descriptor and the local field map are updated as one step of the field loop |
| Builder.ScanClass | trunk/helenus/src/main/java/org/helenus/EntityManagerImpl.java:90-179 | pass 1 for one class computes the per-class scan that the lemmas below characterise |
| Builder.CountFieldKinds | trunk/helenus/src/main/java/org/helenus/EntityManagerImpl.java:194-202 | the counters equal the numbers of super-column fields and of other fields, whatever the map's order |
| Builder.ResolveClass | trunk/helenus/src/main/java/org/helenus/EntityManagerImpl.java:183-211 | pass 2 for one class matches the per-class resolution, although it reads targets from the map it is updating |
| Builder.ScanAll | trunk/helenus/src/main/java/org/helenus/EntityManagerImpl.java:90-180 | pass 1 succeeds iff every class passes; the result does not depend on the class order; a failure is the error of some rejected class |
| Builder.ResolveAll | trunk/helenus/src/main/java/org/helenus/EntityManagerImpl.java:182-215 | pass 2 succeeds iff every class resolves; the result does not depend on the order; a failure is the error of some failing class |
| Builder.Build | trunk/helenus/src/main/java/org/helenus/EntityManagerImpl.java:89-216 | the constructor succeeds iff both passes succeed, with an order-independent class map; a failure is a pass-1 error when some class fails pass 1, else a pass-2 error |
| BuilderFacts.ScanFieldsInverseName | trunk/helenus/src/main/java/org/helenus/EntityManagerImpl.java:115-117 | the field loop records the last field carrying `@CassandraInverseColumnName`, key and unkept fields included, and keeps the old value when none does |
| BuilderFacts.ScannedInverseName | trunk/helenus/src/main/java/org/helenus/EntityManagerImpl.java:115-117 | a scanned class reads its inverse column name from the last field carrying `@CassandraInverseColumnName`, or from no field |
| BuilderFacts.BuiltDependentKeyTarget | trunk/helenus/src/main/java/org/helenus/EntityManagerImpl.java:184-191 | after a successful build, a dependent key's target name is the key field name of the class its key field's type maps to; a non-dependent key has none |
| BuilderFacts.ScanFieldsKeepsClassSettings | trunk/helenus/src/main/java/org/helenus/EntityManagerImpl.java:111-177 | the field loop never changes the class, storage name, inverse settings or dependent-key target |
| BuilderFacts.ScanFieldsFailsIff | trunk/helenus/src/main/java/org/helenus/EntityManagerImpl.java:124-136 | the field loop fails iff some field has both column and super-column annotations, both name-field annotations, or a dependent key whose type is not a candidate; a column plus a column-name annotation is accepted; the checks apply to key fields too |
| BuilderFacts.ScanFieldsFieldMap | trunk/helenus/src/main/java/org/helenus/EntityManagerImpl.java:138-176 | exactly the kept fields (non-key, with one of the four annotations) enter the map, each under its own name with its description; `hasSuperColumn` holds iff some kept field is a super column |
| BuilderFacts.ScanFieldsKey | trunk/helenus/src/main/java/org/helenus/EntityManagerImpl.java:131-142 | the last key field wins; it is dependent iff it carries `@CassandraDependentKey` (always, in the earlier revision) |
| BuilderFacts.FieldTypeOfDeclared | trunk/helenus/src/main/java/org/helenus/EntityManagerImpl.java:185 | looking up a declared field by name gives its declared type |
| BuilderFacts.RevisionsScanAlike | trunk/helenus/src/main/java/org/helenus/EntityManager.java:108-174 | the two revisions' field loops reject the same fields and build the same descriptor apart from the dependent flag |
| BuilderFacts.StorageNameRule | trunk/helenus/src/main/java/org/helenus/EntityManagerImpl.java:93-107 | a class without `@CassandraColumnFamily` is rejected; the storage name is the explicit name or else the lower-cased simple name; inverse iff the inverse annotation, with its suffix |
| BuilderFacts.ScanFailsIff | trunk/helenus/src/main/java/org/helenus/EntityManagerImpl.java:93-136 | pass 1 rejects a class iff it is unmapped or one of its fields is rejected |
| BuilderFacts.ScannedFields | trunk/helenus/src/main/java/org/helenus/EntityManagerImpl.java:138-178 | a scanned class keeps exactly its annotated non-key fields, each with its description; key fields never enter the map |
| BuilderFacts.DescribedField | trunk/helenus/src/main/java/org/helenus/EntityManagerImpl.java:145-166 | column and super-column names are null without their annotation, else the explicit name or the field name; the index name is the explicit one or the capitalised field name; the name fields are the annotations' `field` attributes; the parent is the non-empty target attribute; the role predicates follow the annotations |
| BuilderFacts.ScannedKey | trunk/helenus/src/main/java/org/helenus/EntityManagerImpl.java:131-142 | the key field is the last key field; without one there is no key; a dependent key always has a key field; in the earlier revision the key is dependent iff there is one |
| BuilderFacts.RevisionsAgree | trunk/helenus/src/main/java/org/helenus/EntityManager.java:87-176 | both revisions reject the same classes with the same error, and their descriptors differ only in the dependent flag |
| BuilderFacts.UnmappedClassFailsBuild | trunk/helenus/src/main/java/org/helenus/EntityManagerImpl.java:93-96 | one class without `@CassandraColumnFamily` makes the whole build fail with that error among the possible ones |
| BuilderFacts.TrunkTargetAlwaysMapped | trunk/helenus/src/main/java/org/helenus/EntityManagerImpl.java:186-189 | after a successful pass 1 the trunk's "no mapped column family" error cannot occur |
| BuilderFacts.EarlierPlainKeyFailsBuild | trunk/helenus/src/main/java/org/helenus/EntityManager.java:179-185 | in the earlier revision, a class whose key fields all have non-entity types makes the build fail in pass 2 with a null-target error |
| BuilderFacts.InverseRule | trunk/helenus/src/main/java/org/helenus/EntityManagerImpl.java:193-211 | every built inverse class has at most one super-column field, or none and at most one other field, and a scanned inverse class that breaks this makes the build fail |
| BuilderFacts.ScanWellShaped | trunk/helenus/src/main/java/org/helenus/EntityManagerImpl.java:168-178 | a scanned descriptor is keyed by field names, its super-column flag is exact, and a dependent key has a key field |
| BuilderFacts.ResolveKeepsShape | trunk/helenus/src/main/java/org/helenus/EntityManagerImpl.java:183-211 | pass 2 only sets the dependent-key target name: for a dependent key, the key field's type has a descriptor and the target is that descriptor's key field name; a non-dependent key keeps the name pass 1 left |
| BuilderFacts.ResolvedWellFormed | trunk/helenus/src/main/java/org/helenus/EntityManagerImpl.java:182-215 | each built descriptor satisfies the invariants the engine relies on |
| BuilderFacts.BuiltRegistered | trunk/helenus/src/main/java/org/helenus/EntityManagerImpl.java:179 | the built class map has one well-formed descriptor per candidate class, under its own class |
| Storage.Encoded | trunk/helenus/src/main/java/org/helenus/EntityManagerImpl.java:426-430 | a value the serialiser cannot encode is stored as the empty value |
| Storage.PutRow | trunk/helenus/src/main/java/org/helenus/EntityManagerImpl.java:516 | an insertion changes its own row and no other |
| Storage.WriteCells | trunk/helenus/src/main/java/org/helenus/EntityManagerImpl.java:450-460 | insertions applied in any order leave every written name with one of its written values and every other name unchanged |
| Engine.GetAnnotatedClass | trunk/helenus/src/main/java/org/helenus/EntityManagerImpl.java:359-367 | an unmapped class is an error naming that class; a mapped one gives its descriptor |
| Engine.GetKey | trunk/helenus/src/main/java/org/helenus/EntityManagerImpl.java:399-415 | a plain key is the key property, present iff readable; a dependent key is the referenced object's key property, which exists and is not null iff the dependee is set; every failure is wrapped |
| Engine.ResolvedKey | trunk/helenus/src/main/java/org/helenus/EntityManagerImpl.java:389-396 | a null key is replaced by the fresh key, any other is kept |
| Engine.ResolveName | trunk/helenus/src/main/java/org/helenus/EntityManagerImpl.java:469-493 | a literal name wins; otherwise the name is read from the field value's name property, and this succeeds iff the field holds an object that has that property and it is not an object |
| Engine.ColumnNameFor | trunk/helenus/src/main/java/org/helenus/EntityManagerImpl.java:469-480 | the literal column name, else the name read from the field value's column-name property; stated by `Engine.ResolveName` |
| Engine.SuperColumnNameFor | trunk/helenus/src/main/java/org/helenus/EntityManagerImpl.java:482-493 | the literal super-column name, else the name read from the field value's super-column-name property; stated by `Engine.ResolveName` |
| Engine.BuildSubColumns | trunk/helenus/src/main/java/org/helenus/EntityManagerImpl.java:433-437 | the sub-columns are one per kept field, under its literal column name, all holding the given value, or an error when a name is null |
| Engine.BuildEntry | trunk/helenus/src/main/java/org/helenus/EntityManagerImpl.java:424-446 | one field contributes a super column, a flat column or nothing; see `EngineFacts.BatchShape` |
| Engine.BuildBatch | trunk/helenus/src/main/java/org/helenus/EntityManagerImpl.java:418-447 | the batch is built iff every field's entry is, independently of the map's order; a failure is the error of some failing field |
| Engine.ExecuteBatch | trunk/helenus/src/main/java/org/helenus/EntityManagerImpl.java:448-460 | executing the batch overwrites the named cells of the entity's row and leaves every other row alone |
| Engine.SetColumnFamilyName | trunk/helenus/src/main/java/org/helenus/EntityManagerImpl.java:650-656 | the name plus the suffix iff the class is inverse and the inverse side is asked for, else the plain name |
| Engine.FindInverseValue | trunk/helenus/src/main/java/org/helenus/EntityManagerImpl.java:504-513 | the loop's value is the single super column's name, else the single column's name, whatever the map's order |
| Engine.HandleInverse | trunk/helenus/src/main/java/org/helenus/EntityManagerImpl.java:496-518 | nothing is written for a non-inverse class; an inverse class either fails without writing or writes exactly the inverse column |
| Engine.Persist | trunk/helenus/src/main/java/org/helenus/EntityManagerImpl.java:374-467 | an unmapped class, an invalid object, a key failure or a batch failure changes nothing; otherwise the batch is written at the resolved key and then the inverse column |
| Queries.ReadFields | trunk/helenus/src/main/java/org/helenus/EntityManagerImpl.java:343-350 | the read loop gives the rebuilt object, or null when some kept column cannot be read |
| Queries.GetById | trunk/helenus/src/main/java/org/helenus/EntityManagerImpl.java:335-357 | an unmapped class throws, a null id is an error, otherwise the result is the all-or-nothing read of the row at that id |
| Queries.RebuildRow | trunk/helenus/src/main/java/org/helenus/EntityManagerImpl.java:553-564 | one row gives the rebuilt object described in `EngineFacts.RebuiltShape` |
| Queries.GetResultList | trunk/helenus/src/main/java/org/helenus/EntityManagerImpl.java:545-574 | the row loop gives the rebuilt list of `EngineFacts.RebuiltAllShape` |
| Queries.FillColumnNames | trunk/helenus/src/main/java/org/helenus/EntityManagerImpl.java:576-583 | the array holds one column name per kept field, each field once, in some order |
| Queries.GetByPropertyValue | trunk/helenus/src/main/java/org/helenus/EntityManagerImpl.java:524-543 | an unmapped class, a property that is not kept and a property without an index fail before any query; otherwise the query asks the class's column family for the kept columns where the property equals the encoded value, and each answered row becomes one object |
| Queries.Multiget | trunk/helenus/src/main/java/org/helenus/EntityManagerImpl.java:612-615 | one row per requested key, in order, holding exactly the stored columns among the requested names, each with its stored value |
| Queries.GetList | trunk/helenus/src/main/java/org/helenus/EntityManagerImpl.java:609-619 | an unmapped class is a null-pointer error; otherwise the rows of the requested keys become objects through the result loop |
| Queries.GetRange | trunk/helenus/src/main/java/org/helenus/EntityManagerImpl.java:625-648 | a super-slice query iff the class has a super column, against the inverse family iff asked and inverse, at the given key and count, from the serialised start column; an unmapped class is a null-pointer error |
| Queries.EarlierGetList | trunk/helenus/src/main/java/org/helenus/EntityManager.java:564-570 | the earlier range read always gives null |
| EngineFacts.EarlierKeyFollowsReference | trunk/helenus/src/main/java/org/helenus/EntityManager.java:135-139 | in the earlier revision a key is always dependent, so `getKey` succeeds iff the referenced object's key is set |
| EngineFacts.NullKeyUsesFreshKey | trunk/helenus/src/main/java/org/helenus/EntityManagerImpl.java:389-396 | a successful persist writes under the fresh key iff the resolved key was null, else under the resolved key |
| EngineFacts.BatchShape | trunk/helenus/src/main/java/org/helenus/EntityManagerImpl.java:424-446 | each field that is not a super column and has no parent gives one flat column with its own value; each super-column field gives one super column whose sub-columns are every kept field's name, all with that field's value; the batch holds nothing else |
| EngineFacts.UnnamedSubColumnStopsBatch | trunk/helenus/src/main/java/org/helenus/EntityManagerImpl.java:433-437 | a class with a super-column field and a field without a literal column name cannot build a batch |
| EngineFacts.SuperColumnClassNeverPersists | trunk/helenus/src/main/java/org/helenus/EntityManagerImpl.java:432-440 | a built class with a kept `@CassandraSuperColumn` field, or a kept `@CassandraSuperColumnName` field without `@CassandraColumn`, can never build a batch |
| EngineFacts.PersistThenGetById | trunk/helenus/src/main/java/org/helenus/EntityManagerImpl.java:418-467 | for plain, distinctly named columns and a serialiser that reads back, `getById` at the key `persist` returns gives every kept property as written |
| EngineFacts.InverseColumnCases | trunk/helenus/src/main/java/org/helenus/EntityManagerImpl.java:502-514 | the inverse column is named by the inverse-name property; its value is the name of the super column when there is one, else of the single field |
| EngineFacts.InverseWrittenAtEntityKey | trunk/helenus/src/main/java/org/helenus/EntityManagerImpl.java:514-516 | after a successful persist of an inverse class, the inverse family holds the inverse column at the entity key |
| EngineFacts.InverseFailureKeepsBatch | trunk/helenus/src/main/java/org/helenus/EntityManagerImpl.java:460-465 | when the inverse write fails, persist throws with the batch already written |
| EngineFacts.EmptyInverseClassFails | trunk/helenus/src/main/java/org/helenus/EntityManagerImpl.java:504-514 | an inverse class without kept fields always fails its inverse write |
| EngineFacts.ReadBackAllOrNothing | trunk/helenus/src/main/java/org/helenus/EntityManagerImpl.java:340-356 | `getById` gives an object with exactly the kept properties or null; a kept field without a literal column name (`@CassandraSuperColumn`, or a name annotation without `@CassandraColumn`) makes it always null |
| EngineFacts.RebuiltShape | trunk/helenus/src/main/java/org/helenus/EntityManagerImpl.java:553-564 | a rebuilt object has the key field set to the row key and every other kept field converted from its column; it fails iff a column is missing or there is no key field |
| EngineFacts.RebuiltAllShape | trunk/helenus/src/main/java/org/helenus/EntityManagerImpl.java:549-573 | the result list has one object per row in row order, each the rebuilt row, and fails iff some row fails |
| EngineFacts.DefaultSuffixInverseFamily | trunk/helenus/src/main/java/org/helenus/annotation/CassandraInverseColumnFamily.java:23 | a class with the default inverse suffix keeps its inverse columns in its storage name followed by `Inverse` |
| EngineFacts.RangeTargetsInverseFamily | trunk/helenus/src/main/java/org/helenus/EntityManagerImpl.java:650-656 | for an inverse class the inverse side is the plain name plus the suffix, a different family from the primary one |
| Findings.KeyOfAsWritten | trunk/helenus/src/main/java/org/helenus/EntityManagerImpl.java:398-414 | as written, a plain key is found iff the key property exists, and a dependent key can be found only under a property of `java.lang.String` |
| Findings.ResolveNameAsWritten | trunk/helenus/src/main/java/org/helenus/EntityManagerImpl.java:469-493 | as written, a literal name is used as is, and a dynamic name can be found only under a property of `java.lang.String` |
| Findings.DynamicNameCounterexample | trunk/helenus/src/main/java/org/helenus/EntityManagerImpl.java:476-477 | a field referring to an object with `name == "x"` under `@CassandraColumnName(field = "name")` fails as written and names the column `x` as intended |
| Findings.DependentKeyCounterexample | trunk/helenus/src/main/java/org/helenus/EntityManagerImpl.java:404-405 | a dependent key on `id` whose dependee has `id == "7"` fails as written and gives the key `7` as intended |

## Left out

- `init()` (dropping and creating the keyspace) and `findEntityClasses()`
  (classpath scanning) are left out. They are cluster administration and class
  loading; the builder takes the set of class declarations as input.
- Bean validation, the Hector client and `UUID.randomUUID()` are
  parameters: `valid`, the store, `answer` and `newKey`.
- Logging (`logger.debug`) is dropped: it changes nothing the model states.
- The `Inverse` default of `@CassandraInverseColumnFamily.suffix()`
  (`trunk/helenus/src/main/java/org/helenus/annotation/CassandraInverseColumnFamily.java:23`) is the constant `Annotations.DefaultInverseSuffix`. A
  declaration carries its suffix already resolved, as Java's annotation default
  gives it. `EngineFacts.DefaultSuffixInverseFamily` states what the default
  means for the inverse family.
- `ClassDecl.fields` is the order in which `getDeclaredFields()` returns the
  fields. Java does not specify that order; "the last key field" and "the last
  `@CassandraInverseColumnName` field" refer to it.
- Structure.AnnotatedField.constructor: takes the reflected field. The source
  has only the implicit no-argument constructor, which leaves `field` null, and
  the builder calls `setField` right after it. The model merges the two calls,
  so it has no descriptor without a field.
- `BeanUtils.getProperty` returns the property's string form; the model reads
  the value itself. A property holding an object, read as a column name, is an
  error (`NotText`) instead of the object's `toString()`. Column values, and
  keys, are therefore serialised from the value rather than from its text.
  As written, the second `getProperty` of `getKey`, `getColumnName` and
  `getSuperColumnName` reads from a `String`, so in the source every dependent
  key (every key of the earlier revision) and every dynamic column or
  super-column name fails unless its property is `bytes`, `class` or `empty`.
  `Engine.GetKey`, `Engine.ResolveName` and `EngineFacts.PersistThenGetById`
  let these succeed; "## Findings" states both readings.
- `clazz.newInstance()` is assumed to succeed.
- `BeanUtils.setProperty` is assumed to accept every value.
- The model takes the gateway to reject a null column name or value when a
  column is created (`NullName`, `NullValue`).
- Java string operations are modelled on ASCII letters only.
- The class map holds descriptor values. Pass 2 updates the descriptors in
  place, which the model shows as a new map value.
- Queries.GetById: the key is the id value itself, not `id.toString()`.
- Engine.Persist: returns the key written under instead of the object `e`,
  which is unchanged.
- Queries.GetRange: describes the slice query issued. The trunk executes the
  flat slice but discards it and always returns null; the query's execution is
  left out.
- Queries.GetByPropertyValue: the answered rows come in as the parameter
  `answer` and are not tied to the store.
- Queries.Multiget: the rows come back in key order, one per requested key,
  repeats included. The source's multiget answers one row per distinct key, in
  the gateway's order, so a repeated id gives one object there and two here.

## Findings

| source | as written | input that shows it | evidently intended | confidence | as-written member | corrected member |
|---|---|---|---|---|---|---|
| trunk/helenus/src/main/java/org/helenus/EntityManagerImpl.java:469-493 | the name property is read from the string form of the field's value, a `java.lang.String` | a field `owner` referring to an object with `name == "x"`, annotated `@CassandraColumnName(field = "name")` | the column is named `x`, the referenced object's `name` | medium; not executed | Findings.DynamicNameCounterexample | Engine.ResolveName |
| trunk/helenus/src/main/java/org/helenus/EntityManagerImpl.java:398-414 | the dependee's key property is read from the string form of the dependee, a `java.lang.String` | a key field `owner` referring to an object with `id == "7"`, with a dependent key on `id` | the key is `7`, the dependee's own key | medium; not executed | Findings.DependentKeyCounterexample | Engine.GetKey |
