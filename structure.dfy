/**
 * The descriptors the builder produces: one per mapped field (`AnnotatedField`)
 * and one per mapped class (`AnnotatedClass`).
 */
module Structure {
  import opened Results
  import opened Annotations

  /** A reflected `java.lang.reflect.Field`: its name and declared type. */
  datatype FieldRef = FieldRef(name: string, typ: ClassName)

  /**
   * The state of one `AnnotatedField` as a value. A `None` component is a
   * Java `null`. This is what the class map of the entity manager holds.
   */
  datatype FieldDesc = FieldDesc(
    field: FieldRef,
    columnName: Option<string>,
    superColumnName: Option<string>,
    superColumnParentName: Option<string>,
    secondaryIndexName: Option<string>,
    columnNameField: Option<string>,
    superColumnNameField: Option<string>)
  {
    /** The field is written as a super column, under a literal or a dynamic name. */
    predicate IsSuperColumn() {
      superColumnName.Some? || superColumnNameField.Some?
    }

    /** The field is queryable through a secondary index. */
    predicate IsSecondaryIndex() {
      secondaryIndexName.Some?
    }

    /** The field's value is folded into a super column instead of being written on its own. */
    predicate HasSuperColumnParent() {
      superColumnParentName.Some?
    }
  }

  /** The descriptor of a field before any setter other than `setField` has run. */
  function Blank(field: FieldRef): FieldDesc {
    FieldDesc(field, None, None, None, None, None, None)
  }

  /**
   * The mutable field descriptor. The source constructs it empty and calls
   * `setField` at once; here the constructor takes the reflected field.
   */
  class AnnotatedField {
    var field: FieldRef
    var columnName: Option<string>
    var superColumnName: Option<string>
    var superColumnParentName: Option<string>
    var secondaryIndexName: Option<string>
    var columnNameField: Option<string>
    var superColumnNameField: Option<string>

    /** The current state as a value. */
    function Snapshot(): FieldDesc
      reads this
    {
      FieldDesc(field, columnName, superColumnName, superColumnParentName,
                secondaryIndexName, columnNameField, superColumnNameField)
    }

    predicate IsSuperColumn(): (b: bool)
      reads this
      ensures b <==> superColumnName.Some? || superColumnNameField.Some?
    {
      Snapshot().IsSuperColumn()
    }

    predicate IsSecondaryIndex(): (b: bool)
      reads this
      ensures b <==> secondaryIndexName.Some?
    {
      Snapshot().IsSecondaryIndex()
    }

    predicate HasSuperColumnParent(): (b: bool)
      reads this
      ensures b <==> superColumnParentName.Some?
    {
      Snapshot().HasSuperColumnParent()
    }

    constructor (field: FieldRef)
      ensures Snapshot() == Blank(field)
      ensures !IsSuperColumn() && !IsSecondaryIndex() && !HasSuperColumnParent()
    {
      this.field := field;
      columnName, superColumnName, superColumnParentName := None, None, None;
      secondaryIndexName, columnNameField, superColumnNameField := None, None, None;
    }

    method SetField(field: FieldRef)
      modifies this
      ensures this.field == field
      ensures Snapshot() == old(Snapshot()).(field := field)
    {
      this.field := field;
    }

    method SetColumnName(columnName: Option<string>)
      modifies this
      ensures this.columnName == columnName
      ensures Snapshot() == old(Snapshot()).(columnName := columnName)
    {
      this.columnName := columnName;
    }

    method SetSecondaryIndexName(secondaryIndexName: Option<string>)
      modifies this
      ensures this.secondaryIndexName == secondaryIndexName
      ensures Snapshot() == old(Snapshot()).(secondaryIndexName := secondaryIndexName)
    {
      this.secondaryIndexName := secondaryIndexName;
    }

    method SetSuperColumnName(superColumnName: Option<string>)
      modifies this
      ensures this.superColumnName == superColumnName
      ensures Snapshot() == old(Snapshot()).(superColumnName := superColumnName)
    {
      this.superColumnName := superColumnName;
    }

    method SetSuperColumnParentName(superColumnParentName: Option<string>)
      modifies this
      ensures this.superColumnParentName == superColumnParentName
      ensures Snapshot() == old(Snapshot()).(superColumnParentName := superColumnParentName)
    {
      this.superColumnParentName := superColumnParentName;
    }

    method SetColumnNameField(columnNameField: Option<string>)
      modifies this
      ensures this.columnNameField == columnNameField
      ensures Snapshot() == old(Snapshot()).(columnNameField := columnNameField)
    {
      this.columnNameField := columnNameField;
    }

    method SetSuperColumnNameField(superColumnNameField: Option<string>)
      modifies this
      ensures this.superColumnNameField == superColumnNameField
      ensures Snapshot() == old(Snapshot()).(superColumnNameField := superColumnNameField)
    {
      this.superColumnNameField := superColumnNameField;
    }
  }

  /**
   * The entity descriptor (`AnnotatedClass`), as the state its setters build:
   * storage name, inverse settings, key field, dependent-key resolution,
   * the super-column flag and the map of kept fields by name.
   */
  datatype ClassDesc = ClassDesc(
    clazz: ClassName,
    columnFamilyName: string,
    inverse: bool,
    inverseColumnFamilySuffix: Option<string>,
    keyFieldName: Option<string>,
    dependentKey: bool,
    dependentKeyFieldName: Option<string>,
    hasSuperColumn: bool,
    inverseColumnNameField: Option<string>,
    fields: map<string, FieldDesc>)
}
