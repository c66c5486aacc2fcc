/**
 * What the metadata builder guarantees, stated over the pass-1 and pass-2
 * specification functions of module Builder.
 */
module BuilderFacts {
  import opened Results
  import opened JavaText
  import opened Annotations
  import opened Structure
  import opened Builder

  /** A field that pass 1 rejects: both column kinds, both name-field kinds, or an unmapped dependent key. */
  predicate Rejected(names: set<ClassName>, f: FieldDecl) {
    || (f.column.Some? && f.superColumn.Some?)
    || (f.columnName.Some? && f.superColumnName.Some?)
    || (f.dependentKey && f.typ !in names)
  }

  /** The descriptor invariants the runtime engine relies on. */
  predicate WellFormed(meta: ClassDesc) {
    && (forall k :: k in meta.fields ==> meta.fields[k].field.name == k)
    && (meta.hasSuperColumn <==> exists k :: k in meta.fields && meta.fields[k].IsSuperColumn())
    && (meta.inverse ==> meta.inverseColumnFamilySuffix.Some? && InverseShapeOk(meta.fields))
    && (meta.dependentKey ==> meta.keyFieldName.Some?)
  }

  // ------------------------------------------------------------ field-loop lemmas

  lemma {:induction false} ScanFieldsKeepsClassSettings(rev: Revision, names: set<ClassName>, c: ClassName,
                                                        fs: seq<FieldDecl>, ac: ClassDesc)
    requires ScanFields(rev, names, c, fs, ac).Success?
    ensures var r := ScanFields(rev, names, c, fs, ac).value;
      && r.clazz == ac.clazz && r.columnFamilyName == ac.columnFamilyName
      && r.inverse == ac.inverse && r.inverseColumnFamilySuffix == ac.inverseColumnFamilySuffix
      && r.dependentKeyFieldName == ac.dependentKeyFieldName
    decreases |fs|
  {
    if fs != [] {
      ScanFieldsKeepsClassSettings(rev, names, c, fs[1..], ScanField(rev, fs[0], ac));
    }
  }

  lemma {:induction false} ScanFieldsFailsIff(rev: Revision, names: set<ClassName>, c: ClassName,
                                              fs: seq<FieldDecl>, ac: ClassDesc)
    ensures ScanFields(rev, names, c, fs, ac).Failure? <==> exists i :: 0 <= i < |fs| && Rejected(names, fs[i])
    decreases |fs|
  {
    if fs != [] {
      ScanFieldsFailsIff(rev, names, c, fs[1..], ScanField(rev, fs[0], ac));
      if exists i :: 0 <= i < |fs[1..]| && Rejected(names, fs[1..][i]) {
        var i :| 0 <= i < |fs[1..]| && Rejected(names, fs[1..][i]);
        assert Rejected(names, fs[i + 1]);
      }
      if exists i :: 0 <= i < |fs| && Rejected(names, fs[i]) {
        var i :| 0 <= i < |fs| && Rejected(names, fs[i]);
        if i > 0 {
          assert Rejected(names, fs[1..][i - 1]);
        }
      }
    }
  }

  /** Invariant of the field map while pass 1 runs: keyed by field name, super-column flag exact. */
  predicate FieldMapOk(ac: ClassDesc) {
    && (forall k :: k in ac.fields ==> ac.fields[k].field.name == k)
    && (ac.hasSuperColumn <==> exists k :: k in ac.fields && ac.fields[k].IsSuperColumn())
  }

  /** Some field of `fs` named `k` is kept in the field map. */
  predicate KeptAmong(fs: seq<FieldDecl>, k: string) {
    exists i :: 0 <= i < |fs| && fs[i].name == k && Kept(fs[i])
  }

  lemma KeptAmongCons(fs: seq<FieldDecl>, k: string)
    requires fs != []
    ensures KeptAmong(fs, k) <==> (fs[0].name == k && Kept(fs[0])) || KeptAmong(fs[1..], k)
  {
    if KeptAmong(fs[1..], k) {
      var i :| 0 <= i < |fs[1..]| && fs[1..][i].name == k && Kept(fs[1..][i]);
      assert fs[i + 1] == fs[1..][i];
    }
    if KeptAmong(fs, k) {
      var i :| 0 <= i < |fs| && fs[i].name == k && Kept(fs[i]);
      if i > 0 {
        assert fs[1..][i - 1] == fs[i];
      }
    }
  }

  /** One step of the field loop on a field whose name is new keeps the field map consistent. */
  lemma ScanFieldStep(rev: Revision, f: FieldDecl, ac: ClassDesc)
    requires FieldMapOk(ac) && f.name !in ac.fields
    ensures FieldMapOk(ScanField(rev, f, ac))
    ensures ScanField(rev, f, ac).fields == if Kept(f) then ac.fields[f.name := DescribeField(f)] else ac.fields
  {
    var next := ScanField(rev, f, ac);
    if !IsKeyField(f) && Annotated(f) {
      var d := DescribeField(f);
      assert d.IsSuperColumn() <==> f.superColumn.Some? || f.superColumnName.Some?;
      assert next.fields == ac.fields[f.name := d];
      if next.hasSuperColumn {
        if ac.hasSuperColumn {
          var k :| k in ac.fields && ac.fields[k].IsSuperColumn();
          assert k in next.fields && next.fields[k].IsSuperColumn();
        } else {
          assert f.name in next.fields && next.fields[f.name].IsSuperColumn();
        }
      }
      if exists k :: k in next.fields && next.fields[k].IsSuperColumn() {
        var k :| k in next.fields && next.fields[k].IsSuperColumn();
        if k != f.name {
          assert k in ac.fields && ac.fields[k].IsSuperColumn();
        }
      }
    }
  }

  lemma {:induction false} ScanFieldsFieldMap(rev: Revision, names: set<ClassName>, c: ClassName,
                                              fs: seq<FieldDecl>, ac: ClassDesc)
    requires ScanFields(rev, names, c, fs, ac).Success?
    requires DistinctFieldNames(fs) && FieldMapOk(ac)
    requires forall i :: 0 <= i < |fs| ==> fs[i].name !in ac.fields
    ensures var r := ScanFields(rev, names, c, fs, ac).value;
      && FieldMapOk(r)
      && (forall k :: k in r.fields <==> k in ac.fields || KeptAmong(fs, k))
      && (forall k :: k in ac.fields ==> r.fields[k] == ac.fields[k])
      && (forall i :: 0 <= i < |fs| && Kept(fs[i]) ==> r.fields[fs[i].name] == DescribeField(fs[i]))
    decreases |fs|
  {
    if fs != [] {
      var f := fs[0];
      var next := ScanField(rev, f, ac);
      ScanFieldStep(rev, f, ac);
      forall i | 0 <= i < |fs[1..]| ensures fs[1..][i].name !in next.fields {
        assert fs[1..][i] == fs[i + 1];
        assert fs[i + 1].name != f.name;
      }
      assert DistinctFieldNames(fs[1..]) by {
        forall i, j | 0 <= i < j < |fs[1..]| ensures fs[1..][i].name != fs[1..][j].name {
          assert fs[1..][i] == fs[i + 1] && fs[1..][j] == fs[j + 1];
        }
      }
      ScanFieldsFieldMap(rev, names, c, fs[1..], next);
      var r := ScanFields(rev, names, c, fs, ac).value;
      forall k ensures k in r.fields <==> k in ac.fields || KeptAmong(fs, k) {
        KeptAmongCons(fs, k);
      }
      forall i | 0 <= i < |fs| && Kept(fs[i]) ensures r.fields[fs[i].name] == DescribeField(fs[i]) {
        if i > 0 {
          assert fs[1..][i - 1] == fs[i];
        }
      }
    }
  }
  /** Pass 1 records the LAST key or dependent-key field, in the order reflection returns the fields. */
  lemma {:induction false} ScanFieldsKey(rev: Revision, names: set<ClassName>, c: ClassName,
                                         fs: seq<FieldDecl>, ac: ClassDesc)
    requires ScanFields(rev, names, c, fs, ac).Success?
    ensures var r := ScanFields(rev, names, c, fs, ac).value;
      && ((forall i :: 0 <= i < |fs| ==> !IsKeyField(fs[i])) ==>
            r.keyFieldName == ac.keyFieldName && r.dependentKey == ac.dependentKey)
      && ((exists i :: 0 <= i < |fs| && IsKeyField(fs[i])) ==>
            exists i :: 0 <= i < |fs| && IsKeyField(fs[i]) && !Rejected(names, fs[i])
              && (forall j :: i < j < |fs| ==> !IsKeyField(fs[j]))
              && r.keyFieldName == Some(fs[i].name)
              && r.dependentKey == (rev == Earlier || fs[i].dependentKey))
    decreases |fs|
  {
    if fs != [] {
      var next := ScanField(rev, fs[0], ac);
      ScanFieldsKey(rev, names, c, fs[1..], next);
      var r := ScanFields(rev, names, c, fs, ac).value;
      if exists i :: 0 <= i < |fs[1..]| && IsKeyField(fs[1..][i]) {
        var i :| 0 <= i < |fs[1..]| && IsKeyField(fs[1..][i]) && !Rejected(names, fs[1..][i])
              && (forall j :: i < j < |fs[1..]| ==> !IsKeyField(fs[1..][j]))
              && r.keyFieldName == Some(fs[1..][i].name)
              && r.dependentKey == (rev == Earlier || fs[1..][i].dependentKey);
        assert fs[1..][i] == fs[i + 1];
        forall j | i + 1 < j < |fs| ensures !IsKeyField(fs[j]) {
          assert fs[1..][j - 1] == fs[j];
        }
      } else {
        forall j | 0 < j < |fs| ensures !IsKeyField(fs[j]) {
          assert fs[1..][j - 1] == fs[j];
        }
        assert FieldError(names, c, fs[0]).None?;
      }
    }
  }

  /**
   * Pass 1 records the last field carrying `@CassandraInverseColumnName`,
   * whether it is a key field, a kept field or neither.
   */
  lemma {:induction false} ScanFieldsInverseName(rev: Revision, names: set<ClassName>, c: ClassName,
                                                 fs: seq<FieldDecl>, ac: ClassDesc)
    requires ScanFields(rev, names, c, fs, ac).Success?
    ensures var r := ScanFields(rev, names, c, fs, ac).value;
      && ((forall i :: 0 <= i < |fs| ==> !fs[i].inverseColumnName) ==> r.inverseColumnNameField == ac.inverseColumnNameField)
      && ((exists i :: 0 <= i < |fs| && fs[i].inverseColumnName) ==>
            exists i :: 0 <= i < |fs| && fs[i].inverseColumnName
              && (forall j :: i < j < |fs| ==> !fs[j].inverseColumnName)
              && r.inverseColumnNameField == Some(fs[i].name))
    decreases |fs|
  {
    if fs != [] {
      var next := ScanField(rev, fs[0], ac);
      ScanFieldsInverseName(rev, names, c, fs[1..], next);
      var r := ScanFields(rev, names, c, fs, ac).value;
      if exists i :: 0 <= i < |fs[1..]| && fs[1..][i].inverseColumnName {
        var i :| 0 <= i < |fs[1..]| && fs[1..][i].inverseColumnName
              && (forall j :: i < j < |fs[1..]| ==> !fs[1..][j].inverseColumnName)
              && r.inverseColumnNameField == Some(fs[1..][i].name);
        assert fs[1..][i] == fs[i + 1];
        forall j | i + 1 < j < |fs| ensures !fs[j].inverseColumnName {
          assert fs[1..][j - 1] == fs[j];
        }
      } else {
        forall j | 0 < j < |fs| ensures !fs[j].inverseColumnName {
          assert fs[1..][j - 1] == fs[j];
        }
        assert FieldError(names, c, fs[0]).None?;
      }
    }
  }

  /**
   * The inverse column name is read from the last field carrying
   * `@CassandraInverseColumnName` in the order reflection gives the fields, or
   * from no field when none carries it.
   */
  lemma ScannedInverseName(rev: Revision, names: set<ClassName>, c: ClassName, d: ClassDecl)
    requires Scan(rev, names, c, d).Success?
    ensures var r := Scan(rev, names, c, d).value;
      && ((forall i :: 0 <= i < |d.fields| ==> !d.fields[i].inverseColumnName) ==> r.inverseColumnNameField.None?)
      && ((exists i :: 0 <= i < |d.fields| && d.fields[i].inverseColumnName) ==>
            exists i :: 0 <= i < |d.fields| && d.fields[i].inverseColumnName
              && (forall j :: i < j < |d.fields| ==> !d.fields[j].inverseColumnName)
              && r.inverseColumnNameField == Some(d.fields[i].name))
  {
    ScanFieldsInverseName(rev, names, c, d.fields, InitialDesc(c, d, d.columnFamily.value));
  }

  /** `getDeclaredField` finds the declared field of that name when names are distinct. */
  lemma {:induction false} FieldTypeOfDeclared(fs: seq<FieldDecl>, i: int)
    requires DistinctFieldNames(fs) && 0 <= i < |fs|
    ensures FieldType(fs, fs[i].name) == Some(fs[i].typ)
    decreases |fs|
  {
    if i > 0 {
      assert fs[0].name != fs[i].name;
      assert fs[1..][i - 1] == fs[i];
      FieldTypeOfDeclared(fs[1..], i - 1);
    }
  }

  /** The two revisions run the same field loop, except for the dependent-key flag. */
  lemma {:induction false} RevisionsScanAlike(names: set<ClassName>, c: ClassName, fs: seq<FieldDecl>,
                                              trunk: ClassDesc, earlier: ClassDesc)
    requires trunk.(dependentKey := false) == earlier.(dependentKey := false)
    ensures ScanFields(Trunk, names, c, fs, trunk).Success? == ScanFields(Earlier, names, c, fs, earlier).Success?
    ensures ScanFields(Trunk, names, c, fs, trunk).Failure? ==>
      ScanFields(Trunk, names, c, fs, trunk) == ScanFields(Earlier, names, c, fs, earlier)
    ensures ScanFields(Trunk, names, c, fs, trunk).Success? ==>
      ScanFields(Trunk, names, c, fs, trunk).value.(dependentKey := false)
        == ScanFields(Earlier, names, c, fs, earlier).value.(dependentKey := false)
    decreases |fs|
  {
    if fs != [] {
      RevisionsScanAlike(names, c, fs[1..], ScanField(Trunk, fs[0], trunk), ScanField(Earlier, fs[0], earlier));
    }
  }

  // ------------------------------------------------------------ per-class statements

  /**
   * A class without `@CassandraColumnFamily` is rejected; otherwise its storage
   * name is the explicit one, else the lower-cased simple name, and the inverse
   * settings come from `@CassandraInverseColumnFamily`.
   */
  lemma StorageNameRule(rev: Revision, names: set<ClassName>, c: ClassName, d: ClassDecl)
    ensures d.columnFamily.None? ==> Scan(rev, names, c, d) == Failure(NotMapped(c))
    ensures Scan(rev, names, c, d).Success? ==>
      var r := Scan(rev, names, c, d).value;
      && r.clazz == c
      && r.columnFamilyName == (if d.columnFamily.value.name == "" then LowerCase(d.simpleName) else d.columnFamily.value.name)
      && (r.inverse <==> d.inverseColumnFamily.Some?)
      && (r.inverse ==> r.inverseColumnFamilySuffix == Some(d.inverseColumnFamily.value.suffix))
      && r.dependentKeyFieldName.None?
  {
    if Scan(rev, names, c, d).Success? {
      ScanFieldsKeepsClassSettings(rev, names, c, d.fields, InitialDesc(c, d, d.columnFamily.value));
    }
  }

  /**
   * Pass 1 rejects a class exactly when it lacks `@CassandraColumnFamily` or one
   * of its fields, key fields included, carries a conflicting pair or an unmapped
   * dependent key. `@CassandraColumn` with `@CassandraColumnName` is not a conflict.
   */
  lemma ScanFailsIff(rev: Revision, names: set<ClassName>, c: ClassName, d: ClassDecl)
    ensures Scan(rev, names, c, d).Failure? <==>
      d.columnFamily.None? || exists i :: 0 <= i < |d.fields| && Rejected(names, d.fields[i])
  {
    if d.columnFamily.Some? {
      ScanFieldsFailsIff(rev, names, c, d.fields, InitialDesc(c, d, d.columnFamily.value));
    }
  }

  /**
   * The field map after pass 1: a field is in it iff it is not a key field and
   * carries a column, super-column, column-name or super-column-name annotation;
   * its descriptor is `DescribeField` of the declaration; `hasSuperColumn` holds
   * iff some kept field is a super column.
   */
  lemma ScannedFields(rev: Revision, names: set<ClassName>, c: ClassName, d: ClassDecl)
    requires DistinctFieldNames(d.fields) && Scan(rev, names, c, d).Success?
    ensures var r := Scan(rev, names, c, d).value;
      && FieldMapOk(r)
      && (forall k :: k in r.fields <==> KeptAmong(d.fields, k))
      && (forall i :: 0 <= i < |d.fields| && Kept(d.fields[i]) ==> r.fields[d.fields[i].name] == DescribeField(d.fields[i]))
      && (forall i :: 0 <= i < |d.fields| && IsKeyField(d.fields[i]) ==> d.fields[i].name !in r.fields)
  {
    var ac := InitialDesc(c, d, d.columnFamily.value);
    ScanFieldsFieldMap(rev, names, c, d.fields, ac);
    var r := Scan(rev, names, c, d).value;
    forall i | 0 <= i < |d.fields| && IsKeyField(d.fields[i]) ensures d.fields[i].name !in r.fields {
      assert !KeptAmong(d.fields, d.fields[i].name);
    }
  }

  /**
   * The naming defaults and roles of a kept field's descriptor: column and
   * super-column names default to the field name, the index name to the
   * capitalised field name; a super column iff `@CassandraSuperColumn` or
   * `@CassandraSuperColumnName`; indexed iff `@CassandraSecondaryIndex`; a
   * parent iff a non-empty `targetSuperColumnField`.
   */
  lemma DescribedField(f: FieldDecl)
    ensures var d := DescribeField(f);
      && d.field == FieldRef(f.name, f.typ)
      && (d.columnName.Some? <==> f.column.Some?)
      && (f.column.Some? ==> d.columnName.value == (if f.column.value.name == "" then f.name else f.column.value.name))
      && (d.superColumnName.Some? <==> f.superColumn.Some?)
      && (f.superColumn.Some? ==> d.superColumnName.value == (if f.superColumn.value.name == "" then f.name else f.superColumn.value.name))
      && (d.IsSuperColumn() <==> f.superColumn.Some? || f.superColumnName.Some?)
      && (d.IsSecondaryIndex() <==> f.secondaryIndex.Some?)
      && (f.secondaryIndex.Some? && f.secondaryIndex.value.name == "" ==> d.secondaryIndexName == Some(Capitalize(f.name)))
      && (d.HasSuperColumnParent() <==> f.column.Some? && f.column.value.targetSuperColumnField != "")
      && (d.HasSuperColumnParent() ==> d.superColumnParentName.value == f.column.value.targetSuperColumnField)
      && (f.secondaryIndex.Some? && f.secondaryIndex.value.name != "" ==> d.secondaryIndexName == Some(f.secondaryIndex.value.name))
      && (d.columnNameField.Some? <==> f.columnName.Some?)
      && (f.columnName.Some? ==> d.columnNameField.value == f.columnName.value.field)
      && (d.superColumnNameField.Some? <==> f.superColumnName.Some?)
      && (f.superColumnName.Some? ==> d.superColumnNameField.value == f.superColumnName.value.field)
  {
  }

  /**
   * The key the descriptor records is the last key or dependent-key field;
   * the trunk marks it dependent iff it is `@CassandraDependentKey`, the
   * earlier revision marks every key dependent.
   */
  lemma ScannedKey(rev: Revision, names: set<ClassName>, c: ClassName, d: ClassDecl)
    requires Scan(rev, names, c, d).Success?
    ensures var r := Scan(rev, names, c, d).value;
      && ((forall i :: 0 <= i < |d.fields| ==> !IsKeyField(d.fields[i])) ==> r.keyFieldName.None? && !r.dependentKey)
      && ((exists i :: 0 <= i < |d.fields| && IsKeyField(d.fields[i])) ==>
            exists i :: 0 <= i < |d.fields| && IsKeyField(d.fields[i])
              && (forall j :: i < j < |d.fields| ==> !IsKeyField(d.fields[j]))
              && r.keyFieldName == Some(d.fields[i].name)
              && r.dependentKey == (rev == Earlier || d.fields[i].dependentKey))
      && (r.dependentKey ==> r.keyFieldName.Some?)
      && (rev == Earlier ==> (r.dependentKey <==> r.keyFieldName.Some?))
  {
    ScanFieldsKey(rev, names, c, d.fields, InitialDesc(c, d, d.columnFamily.value));
  }

  /** Both revisions accept the same classes and build the same descriptors up to the dependent-key flag. */
  lemma RevisionsAgree(names: set<ClassName>, c: ClassName, d: ClassDecl)
    ensures Scan(Trunk, names, c, d).Success? <==> Scan(Earlier, names, c, d).Success?
    ensures Scan(Trunk, names, c, d).Failure? ==> Scan(Trunk, names, c, d) == Scan(Earlier, names, c, d)
    ensures Scan(Trunk, names, c, d).Success? ==>
      Scan(Trunk, names, c, d).value.(dependentKey := false) == Scan(Earlier, names, c, d).value.(dependentKey := false)
  {
    if d.columnFamily.Some? {
      var ac := InitialDesc(c, d, d.columnFamily.value);
      RevisionsScanAlike(names, c, d.fields, ac, ac);
    }
  }

  // ------------------------------------------------------------ whole-build statements

  predicate AllDistinct(decls: map<ClassName, ClassDecl>) {
    forall c :: c in decls ==> DistinctFieldNames(decls[c].fields)
  }

  /** One class without `@CassandraColumnFamily` makes the whole build fail. */
  lemma UnmappedClassFailsBuild(rev: Revision, decls: map<ClassName, ClassDecl>, c: ClassName)
    requires c in decls && decls[c].columnFamily.None?
    ensures !BuildSucceeds(rev, decls)
    ensures NotMapped(c) in Pass1Errors(rev, decls)
  {
    StorageNameRule(rev, decls.Keys, c, decls[c]);
  }

  /**
   * In the trunk, a successful pass 1 leaves nothing for the pass-2 null check
   * to catch: every dependent key's target type has a descriptor, so pass 2
   * can only fail on the inverse field-count rule.
   */
  lemma TrunkTargetAlwaysMapped(decls: map<ClassName, ClassDecl>)
    requires Pass1Ok(Trunk, decls) && AllDistinct(decls)
    ensures var scanned := Scanned(Trunk, decls);
      forall c :: c in decls ==> ResolveDependentKey(Trunk, scanned, c, decls[c], scanned[c]).Success?
  {
    var scanned := Scanned(Trunk, decls);
    forall c | c in decls ensures ResolveDependentKey(Trunk, scanned, c, decls[c], scanned[c]).Success? {
      var d := decls[c];
      var ac := scanned[c];
      ScannedKey(Trunk, decls.Keys, c, d);
      if ac.dependentKey {
        var i :| 0 <= i < |d.fields| && IsKeyField(d.fields[i])
              && (forall j :: i < j < |d.fields| ==> !IsKeyField(d.fields[j]))
              && ac.keyFieldName == Some(d.fields[i].name)
              && ac.dependentKey == (Trunk == Earlier || d.fields[i].dependentKey);
        ScanFailsIff(Trunk, decls.Keys, c, d);
        assert !Rejected(decls.Keys, d.fields[i]);
        FieldTypeOfDeclared(d.fields, i);
      }
    }
  }

  /**
   * In the earlier revision every key is dependent, so a class whose key fields
   * all have a type without a descriptor (a plain `String` or `UUID` key) makes
   * pass 2 dereference a missing descriptor, and the build fails.
   */
  lemma EarlierPlainKeyFailsBuild(decls: map<ClassName, ClassDecl>, c: ClassName)
    requires Pass1Ok(Earlier, decls) && AllDistinct(decls)
    requires c in decls
    requires exists i :: 0 <= i < |decls[c].fields| && IsKeyField(decls[c].fields[i])
    requires forall i :: 0 <= i < |decls[c].fields| && IsKeyField(decls[c].fields[i]) ==> decls[c].fields[i].typ !in decls
    ensures !BuildSucceeds(Earlier, decls)
    ensures exists name :: Wrapped(NullTarget(c, name)) in Pass2Errors(Earlier, decls)
  {
    var scanned := Scanned(Earlier, decls);
    var d := decls[c];
    ScannedKey(Earlier, decls.Keys, c, d);
    var i :| 0 <= i < |d.fields| && IsKeyField(d.fields[i])
          && (forall j :: i < j < |d.fields| ==> !IsKeyField(d.fields[j]))
          && scanned[c].keyFieldName == Some(d.fields[i].name)
          && scanned[c].dependentKey;
    FieldTypeOfDeclared(d.fields, i);
    assert Resolve(Earlier, scanned, c, d, scanned[c]) == Failure(Wrapped(NullTarget(c, d.fields[i].name)));
  }

  /**
   * The inverse field-count rule: a successful build leaves every inverse class
   * with at most one super-column field, or none and at most one other field;
   * after a successful pass 1, one inverse class that breaks it fails the build.
   */
  lemma InverseRule(rev: Revision, decls: map<ClassName, ClassDecl>)
    ensures BuildSucceeds(rev, decls) ==>
      forall c :: c in decls && Built(rev, decls)[c].inverse ==> InverseShapeOk(Built(rev, decls)[c].fields)
    ensures Pass1Ok(rev, decls) && (exists c :: c in decls && Scanned(rev, decls)[c].inverse
                                              && !InverseShapeOk(Scanned(rev, decls)[c].fields))
      ==> !BuildSucceeds(rev, decls)
  {
    if Pass1Ok(rev, decls) {
      var scanned := Scanned(rev, decls);
      forall c | c in decls && ResolveDependentKey(rev, scanned, c, decls[c], scanned[c]).Success?
        ensures ResolveDependentKey(rev, scanned, c, decls[c], scanned[c]).value.fields == scanned[c].fields
        ensures ResolveDependentKey(rev, scanned, c, decls[c], scanned[c]).value.inverse == scanned[c].inverse
      {
      }
    }
  }

  /** A class map as the engine holds it: each class mapped to its own well-formed descriptor. */
  predicate Registered(classes: map<ClassName, ClassDesc>) {
    forall c :: c in classes ==> classes[c].clazz == c && WellFormed(classes[c])
  }

  /** A class accepted by pass 1 has the field map, key and inverse settings the engine expects. */
  lemma ScanWellShaped(rev: Revision, names: set<ClassName>, c: ClassName, d: ClassDecl)
    requires DistinctFieldNames(d.fields) && Scan(rev, names, c, d).Success?
    ensures var r := Scan(rev, names, c, d).value;
      && r.clazz == c && FieldMapOk(r)
      && (r.dependentKey ==> r.keyFieldName.Some?)
      && (r.inverse ==> r.inverseColumnFamilySuffix.Some?)
  {
    ScannedFields(rev, names, c, d);
    ScannedKey(rev, names, c, d);
    StorageNameRule(rev, names, c, d);
  }

  /** Pass 2 only fills in the dependent key's target key name, and passes only inverse classes of the allowed shape. */
  lemma ResolveKeepsShape(rev: Revision, scanned: map<ClassName, ClassDesc>, c: ClassName, d: ClassDecl, ac: ClassDesc)
    requires Resolve(rev, scanned, c, d, ac).Success?
    ensures Resolve(rev, scanned, c, d, ac).value
      == ac.(dependentKeyFieldName := Resolve(rev, scanned, c, d, ac).value.dependentKeyFieldName)
    ensures ac.inverse ==> InverseShapeOk(ac.fields)
    ensures !ac.dependentKey ==> Resolve(rev, scanned, c, d, ac).value.dependentKeyFieldName == ac.dependentKeyFieldName
    ensures ac.dependentKey ==>
      && ac.keyFieldName.Some? && FieldType(d.fields, ac.keyFieldName.value).Some?
      && FieldType(d.fields, ac.keyFieldName.value).value in scanned
      && Resolve(rev, scanned, c, d, ac).value.dependentKeyFieldName
           == scanned[FieldType(d.fields, ac.keyFieldName.value).value].keyFieldName
  {
  }

  /**
   * After a successful build, a dependent key's target key name is the key
   * field name of the class its key field refers to; a non-dependent key has
   * none.
   */
  lemma BuiltDependentKeyTarget(rev: Revision, decls: map<ClassName, ClassDecl>, c: ClassName)
    requires BuildSucceeds(rev, decls) && c in decls
    ensures var b := Built(rev, decls);
      && (!b[c].dependentKey ==> b[c].dependentKeyFieldName.None?)
      && (b[c].dependentKey ==>
            && b[c].keyFieldName.Some? && FieldType(decls[c].fields, b[c].keyFieldName.value).Some?
            && FieldType(decls[c].fields, b[c].keyFieldName.value).value in b
            && b[c].dependentKeyFieldName == b[FieldType(decls[c].fields, b[c].keyFieldName.value).value].keyFieldName)
  {
    var scanned := Scanned(rev, decls);
    var ac := scanned[c];
    assert ac == Scan(rev, decls.Keys, c, decls[c]).value;
    StorageNameRule(rev, decls.Keys, c, decls[c]);
    ResolveKeepsShape(rev, scanned, c, decls[c], ac);
    assert Built(rev, decls)[c] == Resolve(rev, scanned, c, decls[c], ac).value;
    if ac.dependentKey {
      var t := FieldType(decls[c].fields, ac.keyFieldName.value).value;
      ResolveKeepsShape(rev, scanned, t, decls[t], scanned[t]);
      assert Built(rev, decls)[t] == Resolve(rev, scanned, t, decls[t], scanned[t]).value;
    }
  }

  /** Pass 2 leaves the class, its fields and its flags as pass 1 built them. */
  lemma ResolvedWellFormed(rev: Revision, decls: map<ClassName, ClassDecl>, c: ClassName)
    requires BuildSucceeds(rev, decls) && AllDistinct(decls) && c in decls
    ensures Built(rev, decls)[c].clazz == c && WellFormed(Built(rev, decls)[c])
  {
    var scanned := Scanned(rev, decls);
    var ac := scanned[c];
    assert ac == Scan(rev, decls.Keys, c, decls[c]).value;
    ScanWellShaped(rev, decls.Keys, c, decls[c]);
    ResolveKeepsShape(rev, scanned, c, decls[c], ac);
    assert Built(rev, decls)[c] == Resolve(rev, scanned, c, decls[c], ac).value;
  }

  /** Every descriptor of a successful build satisfies the invariants the engine relies on. */
  lemma BuiltRegistered(rev: Revision, decls: map<ClassName, ClassDecl>)
    requires BuildSucceeds(rev, decls) && AllDistinct(decls)
    ensures Built(rev, decls).Keys == decls.Keys
    ensures Registered(Built(rev, decls))
  {
    forall c | c in decls ensures Built(rev, decls)[c].clazz == c && WellFormed(Built(rev, decls)[c]) {
      ResolvedWellFormed(rev, decls, c);
    }
  }
}
