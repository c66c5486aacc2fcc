/**
 * The metadata builder: the constructor of the entity manager. Pass 1 turns
 * each candidate class into an entity descriptor; pass 2 resolves dependent
 * keys and enforces the field-count rule of inverse column families.
 * `Trunk` is `EntityManagerImpl`; `Earlier` is the earlier `EntityManager`,
 * which marks every key dependent and has no null check in pass 2.
 */
module Builder {
  import opened Results
  import opened JavaText
  import opened Annotations
  import opened Structure

  datatype Revision = Trunk | Earlier

  /** The exceptions thrown in pass 2; the source wraps each in a `RuntimeException`. */
  datatype Pass2Failure =
    | NoSuchKeyField(clazz: ClassName)
    | NoMappedTarget(clazz: ClassName, field: string)
    | NullTarget(clazz: ClassName, field: string)
    | InverseFieldCount(clazz: ClassName)

  datatype BuildError =
    | NotMapped(clazz: ClassName)
    | ColumnAndSuperColumn(clazz: ClassName, field: string)
    | ColumnNameAndSuperColumnName(clazz: ClassName, field: string)
    | DependentKeyNotMapped(clazz: ClassName, field: string)
    | Wrapped(cause: Pass2Failure)

  // ---------------------------------------------------------------- pass 1

  /** `getColumnName(Field, CassandraColumn)`: the explicit name, else the field name. */
  function ColumnNameOf(f: FieldDecl): Option<string> {
    match f.column
    case None => None
    case Some(a) => Some(if a.name == "" then f.name else a.name)
  }

  /** `getSuperColumnName(Field, CassandraSuperColumn)`. */
  function SuperColumnNameOf(f: FieldDecl): Option<string> {
    match f.superColumn
    case None => None
    case Some(a) => Some(if a.name == "" then f.name else a.name)
  }

  function ColumnNameFieldOf(f: FieldDecl): Option<string> {
    match f.columnName
    case None => None
    case Some(a) => Some(a.field)
  }

  function SuperColumnNameFieldOf(f: FieldDecl): Option<string> {
    match f.superColumnName
    case None => None
    case Some(a) => Some(a.field)
  }

  function SuperColumnParentOf(f: FieldDecl): Option<string> {
    match f.column
    case None => None
    case Some(a) => if a.targetSuperColumnField == "" then None else Some(a.targetSuperColumnField)
  }

  function SecondaryIndexNameOf(f: FieldDecl): Option<string> {
    match f.secondaryIndex
    case None => None
    case Some(a) => Some(if a.name == "" then Capitalize(f.name) else a.name)
  }

  /** The descriptor the setter calls of pass 1 leave on a non-key field. */
  function DescribeField(f: FieldDecl): FieldDesc {
    FieldDesc(FieldRef(f.name, f.typ), ColumnNameOf(f), SuperColumnNameOf(f), SuperColumnParentOf(f),
              SecondaryIndexNameOf(f), ColumnNameFieldOf(f), SuperColumnNameFieldOf(f))
  }

  predicate IsKeyField(f: FieldDecl) {
    f.key || f.dependentKey
  }

  /** The four annotations that make a non-key field enter the field map. */
  predicate Annotated(f: FieldDecl) {
    f.column.Some? || f.superColumn.Some? || f.columnName.Some? || f.superColumnName.Some?
  }

  predicate Kept(f: FieldDecl) {
    !IsKeyField(f) && Annotated(f)
  }

  /** The checks that reject a field, in the order the source makes them. */
  function FieldError(names: set<ClassName>, c: ClassName, f: FieldDecl): Option<BuildError> {
    if f.column.Some? && f.superColumn.Some? then Some(ColumnAndSuperColumn(c, f.name))
    else if f.columnName.Some? && f.superColumnName.Some? then Some(ColumnNameAndSuperColumnName(c, f.name))
    else if f.dependentKey && f.typ !in names then Some(DependentKeyNotMapped(c, f.name))
    else None
  }

  /** What an accepted field does to the entity descriptor. */
  function ScanField(rev: Revision, f: FieldDecl, ac: ClassDesc): ClassDesc {
    var ac := if f.inverseColumnName then ac.(inverseColumnNameField := Some(f.name)) else ac;
    if IsKeyField(f) then
      ac.(keyFieldName := Some(f.name), dependentKey := rev.Earlier? || f.dependentKey)
    else
      ac.(hasSuperColumn := ac.hasSuperColumn || f.superColumn.Some? || f.superColumnName.Some?,
          fields := if Annotated(f) then ac.fields[f.name := DescribeField(f)] else ac.fields)
  }

  /** The field loop of pass 1, in the order reflection returns the fields; the first rejected field ends it. */
  function ScanFields(rev: Revision, names: set<ClassName>, c: ClassName, fs: seq<FieldDecl>, ac: ClassDesc)
    : Result<ClassDesc, BuildError>
    decreases |fs|
  {
    if fs == [] then Success(ac)
    else if FieldError(names, c, fs[0]).Some? then Failure(FieldError(names, c, fs[0]).value)
    else ScanFields(rev, names, c, fs[1..], ScanField(rev, fs[0], ac))
  }

  /** The storage name: the explicit one, else the lower-cased simple class name. */
  function StorageName(d: ClassDecl, cf: ColumnFamilyAnn): string {
    if cf.name == "" then LowerCase(d.simpleName) else cf.name
  }

  function InitialDesc(c: ClassName, d: ClassDecl, cf: ColumnFamilyAnn): ClassDesc {
    ClassDesc(c, StorageName(d, cf),
              d.inverseColumnFamily.Some?,
              if d.inverseColumnFamily.Some? then Some(d.inverseColumnFamily.value.suffix) else None,
              None, false, None, false, None, map[])
  }

  /** Pass 1 for one class, given the names of all candidate classes. */
  function Scan(rev: Revision, names: set<ClassName>, c: ClassName, d: ClassDecl): Result<ClassDesc, BuildError> {
    match d.columnFamily
    case None => Failure(NotMapped(c))
    case Some(cf) => ScanFields(rev, names, c, d.fields, InitialDesc(c, d, cf))
  }

  /**
   * `new AnnotatedField()` and the setter calls of lines 145-166 for a non-key field;
   * the builder stores the finished descriptor's state.
   */
  method NewFieldDescriptor(field: FieldDecl) returns (d: FieldDesc)
    ensures d == DescribeField(field)
  {
    var af := new AnnotatedField(FieldRef(field.name, field.typ));
    var isSecondaryIndex := field.secondaryIndex.Some?;
    var columnName := ColumnNameOf(field);
    var superColumnName := SuperColumnNameOf(field);
    var columnNameField := ColumnNameFieldOf(field);
    var superColumnNameField := SuperColumnNameFieldOf(field);
    af.SetColumnName(columnName);
    af.SetSuperColumnName(superColumnName);
    af.SetColumnNameField(columnNameField);
    af.SetSuperColumnNameField(superColumnNameField);
    if field.column.Some? && field.column.value.targetSuperColumnField != "" {
      af.SetSuperColumnParentName(Some(field.column.value.targetSuperColumnField));
    }
    if isSecondaryIndex {
      var secondaryIndexName := field.secondaryIndex.value.name;
      if secondaryIndexName == "" {
        secondaryIndexName := Capitalize(field.name);
      }
      af.SetSecondaryIndexName(Some(secondaryIndexName));
    }
    d := af.Snapshot();
  }

  /**
   * One iteration of the field loop of pass 1 (lines 112-176): either the field
   * is rejected, or the descriptor under construction and the local field map
   * are updated.
   */
  method ScanOneField(rev: Revision, names: set<ClassName>, c: ClassName, field: FieldDecl,
                      ac: ClassDesc, annotatedFields: map<string, FieldDesc>)
    returns (r: Result<(ClassDesc, map<string, FieldDesc>), BuildError>)
    ensures FieldError(names, c, field).Some? ==> r == Failure(FieldError(names, c, field).value)
    ensures FieldError(names, c, field).None? ==>
      r.Success? && r.value.0.(fields := r.value.1) == ScanField(rev, field, ac.(fields := annotatedFields))
  {
    var ac, annotatedFields := ac, annotatedFields;
    if field.inverseColumnName {
      ac := ac.(inverseColumnNameField := Some(field.name));
    }
    if field.column.Some? && field.superColumn.Some? {
      return Failure(ColumnAndSuperColumn(c, field.name));
    }
    if field.columnName.Some? && field.superColumnName.Some? {
      return Failure(ColumnNameAndSuperColumnName(c, field.name));
    }
    var isKey := field.key;
    var isDependentKey := field.dependentKey;
    if isDependentKey && field.typ !in names {
      return Failure(DependentKeyNotMapped(c, field.name));
    }
    if isKey || isDependentKey {
      ac := ac.(keyFieldName := Some(field.name));
      ac := ac.(dependentKey := if rev == Trunk then isDependentKey else true);
      return Success((ac, annotatedFields));
    }
    var af := NewFieldDescriptor(field);
    var columnNameField := ColumnNameFieldOf(field);
    var superColumnNameField := SuperColumnNameFieldOf(field);
    if field.superColumn.Some? || superColumnNameField.Some? {
      ac := ac.(hasSuperColumn := true);
    }
    if field.column.Some? || field.superColumn.Some? || columnNameField.Some? || superColumnNameField.Some? {
      annotatedFields := annotatedFields[field.name := af];
    }
    return Success((ac, annotatedFields));
  }

  /** The body of the class loop of pass 1 (lines 91-179 of the trunk constructor). */
  method ScanClass(rev: Revision, names: set<ClassName>, c: ClassName, d: ClassDecl)
    returns (r: Result<ClassDesc, BuildError>)
    ensures r == Scan(rev, names, c, d)
  {
    if d.columnFamily.None? {
      return Failure(NotMapped(c));
    }
    var cf := d.columnFamily.value;
    var ac := ClassDesc(c, cf.name, false, None, None, false, None, false, None, map[]);
    if d.inverseColumnFamily.Some? {
      ac := ac.(inverse := true);
      ac := ac.(inverseColumnFamilySuffix := Some(d.inverseColumnFamily.value.suffix));
    }
    var columnFamilyName := cf.name;
    if columnFamilyName == "" {
      columnFamilyName := LowerCase(d.simpleName);
    }
    ac := ac.(columnFamilyName := columnFamilyName);

    var annotatedFields: map<string, FieldDesc> := map[];
    var i := 0;
    while i < |d.fields|
      invariant 0 <= i <= |d.fields|
      invariant Scan(rev, names, c, d) == ScanFields(rev, names, c, d.fields[i..], ac.(fields := annotatedFields))
    {
      assert d.fields[i..][0] == d.fields[i] && d.fields[i..][1..] == d.fields[i + 1..];
      var step := ScanOneField(rev, names, c, d.fields[i], ac, annotatedFields);
      if step.Failure? {
        return Failure(step.error);
      }
      ac, annotatedFields := step.value.0, step.value.1;
      i := i + 1;
    }
    ac := ac.(fields := annotatedFields);
    return Success(ac);
  }

  // ---------------------------------------------------------------- pass 2

  /** `getDeclaredField(name).getType()`: the type of the field with that name, if any. */
  function FieldType(fs: seq<FieldDecl>, name: string): Option<ClassName>
    decreases |fs|
  {
    if fs == [] then None
    else if fs[0].name == name then Some(fs[0].typ)
    else FieldType(fs[1..], name)
  }

  function SuperColumnKeys(fields: map<string, FieldDesc>): set<string> {
    set k | k in fields && fields[k].IsSuperColumn()
  }

  function ColumnKeys(fields: map<string, FieldDesc>): set<string> {
    set k | k in fields && !fields[k].IsSuperColumn()
  }

  /** At most one super-column field, or no super-column field and at most one other field. */
  predicate InverseShapeOk(fields: map<string, FieldDesc>) {
    var superColumns := |SuperColumnKeys(fields)|;
    var columns := |ColumnKeys(fields)|;
    !(superColumns > 1 || (superColumns == 0 && columns > 1))
  }

  function ResolveDependentKey(rev: Revision, scanned: map<ClassName, ClassDesc>, c: ClassName, d: ClassDecl, ac: ClassDesc)
    : Result<ClassDesc, BuildError>
  {
    if !ac.dependentKey then Success(ac)
    else if ac.keyFieldName.None? || FieldType(d.fields, ac.keyFieldName.value).None? then
      Failure(Wrapped(NoSuchKeyField(c)))
    else
      var t := FieldType(d.fields, ac.keyFieldName.value).value;
      if t !in scanned then
        Failure(Wrapped(if rev == Trunk then NoMappedTarget(c, ac.keyFieldName.value)
                        else NullTarget(c, ac.keyFieldName.value)))
      else Success(ac.(dependentKeyFieldName := scanned[t].keyFieldName))
  }

  /** Pass 2 for one class, against the descriptors pass 1 produced. */
  function Resolve(rev: Revision, scanned: map<ClassName, ClassDesc>, c: ClassName, d: ClassDecl, ac: ClassDesc)
    : Result<ClassDesc, BuildError>
  {
    var ac :- ResolveDependentKey(rev, scanned, c, d, ac);
    if ac.inverse && !InverseShapeOk(ac.fields) then Failure(Wrapped(InverseFieldCount(c)))
    else Success(ac)
  }

  /** The counting loop of pass 2 (lines 194-202). */
  method CountFieldKinds(fields: map<string, FieldDesc>) returns (superColumns: nat, columns: nat)
    ensures superColumns == |SuperColumnKeys(fields)|
    ensures columns == |ColumnKeys(fields)|
  {
    superColumns, columns := 0, 0;
    var todo := fields.Keys;
    assert SuperColumnKeys(fields) * todo == SuperColumnKeys(fields);
    assert ColumnKeys(fields) * todo == ColumnKeys(fields);
    while todo != {}
      invariant todo <= fields.Keys
      invariant superColumns + |SuperColumnKeys(fields) * todo| == |SuperColumnKeys(fields)|
      invariant columns + |ColumnKeys(fields) * todo| == |ColumnKeys(fields)|
    {
      var k :| k in todo;
      if fields[k].IsSuperColumn() {
        assert SuperColumnKeys(fields) * todo == SuperColumnKeys(fields) * (todo - {k}) + {k};
        assert ColumnKeys(fields) * todo == ColumnKeys(fields) * (todo - {k});
        superColumns := superColumns + 1;
      } else {
        assert ColumnKeys(fields) * todo == ColumnKeys(fields) * (todo - {k}) + {k};
        assert SuperColumnKeys(fields) * todo == SuperColumnKeys(fields) * (todo - {k});
        columns := columns + 1;
      }
      todo := todo - {k};
    }
  }

  // ---------------------------------------------------------------- whole build

  predicate Pass1Ok(rev: Revision, decls: map<ClassName, ClassDecl>) {
    forall c :: c in decls ==> Scan(rev, decls.Keys, c, decls[c]).Success?
  }

  function Scanned(rev: Revision, decls: map<ClassName, ClassDecl>): map<ClassName, ClassDesc>
    requires Pass1Ok(rev, decls)
  {
    map c | c in decls :: Scan(rev, decls.Keys, c, decls[c]).value
  }

  /** Every class passes pass 2 against the given pass-1 descriptors. */
  predicate AllResolve(rev: Revision, decls: map<ClassName, ClassDecl>, scanned: map<ClassName, ClassDesc>)
    requires decls.Keys == scanned.Keys
  {
    forall c :: c in decls ==> Resolve(rev, scanned, c, decls[c], scanned[c]).Success?
  }

  function ResolvedMap(rev: Revision, decls: map<ClassName, ClassDecl>, scanned: map<ClassName, ClassDesc>)
    : map<ClassName, ClassDesc>
    requires decls.Keys == scanned.Keys && AllResolve(rev, decls, scanned)
  {
    map c | c in decls :: Resolve(rev, scanned, c, decls[c], scanned[c]).value
  }

  function ResolveErrors(rev: Revision, decls: map<ClassName, ClassDecl>, scanned: map<ClassName, ClassDesc>)
    : set<BuildError>
    requires decls.Keys == scanned.Keys
  {
    set c | c in decls && Resolve(rev, scanned, c, decls[c], scanned[c]).Failure?
      :: Resolve(rev, scanned, c, decls[c], scanned[c]).error
  }

  predicate BuildSucceeds(rev: Revision, decls: map<ClassName, ClassDecl>) {
    Pass1Ok(rev, decls) && AllResolve(rev, decls, Scanned(rev, decls))
  }

  /** The class map of a successful build. */
  function Built(rev: Revision, decls: map<ClassName, ClassDecl>): map<ClassName, ClassDesc>
    requires BuildSucceeds(rev, decls)
  {
    ResolvedMap(rev, decls, Scanned(rev, decls))
  }

  /** The errors pass 1 can throw, one per rejected class; which is thrown depends on set order. */
  function Pass1Errors(rev: Revision, decls: map<ClassName, ClassDecl>): set<BuildError> {
    set c | c in decls && Scan(rev, decls.Keys, c, decls[c]).Failure? :: Scan(rev, decls.Keys, c, decls[c]).error
  }

  function Pass2Errors(rev: Revision, decls: map<ClassName, ClassDecl>): set<BuildError>
    requires Pass1Ok(rev, decls)
  {
    ResolveErrors(rev, decls, Scanned(rev, decls))
  }

  /**
   * The constructor `EntityManagerImpl(Set<Class<?>>)` (or `EntityManager(...)`
   * for `Earlier`). Classes are visited in an unspecified order; whether the
   * build succeeds and what it builds do not depend on it, and a failure is
   * the error of some rejected class (of pass 1 if any class fails pass 1).
   */
  method Build(rev: Revision, decls: map<ClassName, ClassDecl>) returns (r: Result<map<ClassName, ClassDesc>, BuildError>)
    ensures r.Success? <==> BuildSucceeds(rev, decls)
    ensures r.Success? ==> r.value == Built(rev, decls)
    ensures r.Failure? && !Pass1Ok(rev, decls) ==> r.error in Pass1Errors(rev, decls)
    ensures r.Failure? && Pass1Ok(rev, decls) ==> r.error in Pass2Errors(rev, decls)
  {
    var scanned := ScanAll(rev, decls);
    if scanned.Failure? {
      return Failure(scanned.error);
    }
    r := ResolveAll(rev, decls, scanned.value);
  }

  /** Pass 1 over all classes (lines 90-180). */
  method ScanAll(rev: Revision, decls: map<ClassName, ClassDecl>) returns (r: Result<map<ClassName, ClassDesc>, BuildError>)
    ensures r.Success? <==> Pass1Ok(rev, decls)
    ensures r.Success? ==> r.value == Scanned(rev, decls) && r.value.Keys == decls.Keys
    ensures r.Failure? ==> r.error in Pass1Errors(rev, decls)
  {
    var entityClasses := decls.Keys;
    var classes: map<ClassName, ClassDesc> := map[];
    var todo := entityClasses;
    while todo != {}
      invariant todo <= entityClasses
      invariant classes.Keys == entityClasses - todo
      invariant forall c :: c in classes ==> Scan(rev, entityClasses, c, decls[c]) == Success(classes[c])
    {
      var c :| c in todo;
      var ac := ScanClass(rev, entityClasses, c, decls[c]);
      if ac.Failure? {
        assert !Pass1Ok(rev, decls);
        assert ac.error in Pass1Errors(rev, decls);
        return Failure(ac.error);
      }
      classes := classes[c := ac.value];
      todo := todo - {c};
    }
    assert Pass1Ok(rev, decls);
    return Success(classes);
  }

  /**
   * One iteration of the class loop of pass 2 (lines 184-211). The target
   * descriptor is read from the live class map, whose key-field names pass 2
   * never changes.
   */
  method ResolveClass(rev: Revision, c: ClassName, d: ClassDecl, ac: ClassDesc,
                      classes: map<ClassName, ClassDesc>, ghost scanned: map<ClassName, ClassDesc>)
    returns (r: Result<ClassDesc, BuildError>)
    requires classes.Keys == scanned.Keys
    requires forall t :: t in classes ==> classes[t].keyFieldName == scanned[t].keyFieldName
    ensures r == Resolve(rev, scanned, c, d, ac)
  {
    var ac := ac;
    if ac.dependentKey {
      if ac.keyFieldName.None? || FieldType(d.fields, ac.keyFieldName.value).None? {
        return Failure(Wrapped(NoSuchKeyField(c)));
      }
      var fieldType := FieldType(d.fields, ac.keyFieldName.value).value;
      if fieldType !in classes {
        return Failure(Wrapped(if rev == Trunk then NoMappedTarget(c, ac.keyFieldName.value)
                               else NullTarget(c, ac.keyFieldName.value)));
      }
      var targetMeta := classes[fieldType];
      ac := ac.(dependentKeyFieldName := targetMeta.keyFieldName);
    }
    if ac.inverse {
      var superColumns, columns := CountFieldKinds(ac.fields);
      if superColumns > 1 || (superColumns == 0 && columns > 1) {
        return Failure(Wrapped(InverseFieldCount(c)));
      }
    }
    return Success(ac);
  }

  /** Pass 2 over all classes (lines 182-215); it updates the descriptors in the class map as it goes. */
  method ResolveAll(rev: Revision, decls: map<ClassName, ClassDecl>, scanned: map<ClassName, ClassDesc>)
    returns (r: Result<map<ClassName, ClassDesc>, BuildError>)
    requires decls.Keys == scanned.Keys
    ensures r.Success? <==> AllResolve(rev, decls, scanned)
    ensures r.Success? ==> r.value == ResolvedMap(rev, decls, scanned)
    ensures r.Failure? ==> r.error in ResolveErrors(rev, decls, scanned)
  {
    var classes := scanned;
    var todo := decls.Keys;
    ghost var done: set<ClassName> := {};
    while todo != {}
      invariant todo !! done && todo + done == decls.Keys
      invariant classes.Keys == scanned.Keys
      invariant forall c :: c in classes ==> classes[c].keyFieldName == scanned[c].keyFieldName
      invariant forall c :: c in todo ==> classes[c] == scanned[c]
      invariant forall c :: c in done ==> Resolve(rev, scanned, c, decls[c], scanned[c]) == Success(classes[c])
    {
      var c :| c in todo;
      var resolved := ResolveClass(rev, c, decls[c], classes[c], classes, scanned);
      if resolved.Failure? {
        assert resolved.error in ResolveErrors(rev, decls, scanned);
        return Failure(resolved.error);
      }
      classes := classes[c := resolved.value];
      todo, done := todo - {c}, done + {c};
    }
    assert AllResolve(rev, decls, scanned);
    return Success(classes);
  }
}
