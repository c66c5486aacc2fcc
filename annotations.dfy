/**
 * The static annotation data the metadata builder reads by reflection.
 * Each annotation is an optional record: `None` when the annotation is absent,
 * `Some(attributes)` when present. An attribute left at its default is `""`.
 */
module Annotations {
  import opened Results

  /** The identity of a Java class (its `Class<?>` object). */
  type ClassName = string

  /** `@CassandraColumnFamily(name)`. */
  datatype ColumnFamilyAnn = ColumnFamilyAnn(name: string)

  /** `@CassandraInverseColumnFamily(suffix)`. */
  datatype InverseColumnFamilyAnn = InverseColumnFamilyAnn(suffix: string)

  /** The default of `@CassandraInverseColumnFamily.suffix()`. */
  const DefaultInverseSuffix: string := "Inverse"

  /** `@CassandraColumn(name, targetSuperColumnField)`. */
  datatype ColumnAnn = ColumnAnn(name: string, targetSuperColumnField: string)

  /** `@CassandraSuperColumn(name)`. */
  datatype SuperColumnAnn = SuperColumnAnn(name: string)

  /** `@CassandraColumnName(field)`: the column name is read from a property of the field's value. */
  datatype ColumnNameAnn = ColumnNameAnn(field: string)

  /** `@CassandraSuperColumnName(field)`. */
  datatype SuperColumnNameAnn = SuperColumnNameAnn(field: string)

  /** `@CassandraSecondaryIndex(name)`. */
  datatype SecondaryIndexAnn = SecondaryIndexAnn(name: string)

  /**
   * One declared field: its name, its declared type, the marker annotations
   * (`@CassandraKey`, `@CassandraDependentKey`, `@CassandraInverseColumnName`)
   * and the attribute-carrying ones.
   */
  datatype FieldDecl = FieldDecl(
    name: string,
    typ: ClassName,
    key: bool,
    dependentKey: bool,
    inverseColumnName: bool,
    column: Option<ColumnAnn>,
    superColumn: Option<SuperColumnAnn>,
    columnName: Option<ColumnNameAnn>,
    superColumnName: Option<SuperColumnNameAnn>,
    secondaryIndex: Option<SecondaryIndexAnn>)

  /** One candidate class: simple name, class-level annotations, declared fields in the order reflection returns them. */
  datatype ClassDecl = ClassDecl(
    simpleName: string,
    columnFamily: Option<ColumnFamilyAnn>,
    inverseColumnFamily: Option<InverseColumnFamilyAnn>,
    fields: seq<FieldDecl>)

  /** Java forbids two fields of one class with the same name. */
  predicate DistinctFieldNames(fs: seq<FieldDecl>) {
    forall i, j :: 0 <= i < j < |fs| ==> fs[i].name != fs[j].name
  }
}
