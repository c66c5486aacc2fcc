/**
 * What the runtime engine guarantees, stated over its specification
 * functions: keys, the shape of the persist batch, the inverse column, and
 * what reads give back after a write.
 */
module EngineFacts {
  import opened Results
  import opened Annotations
  import opened Structure
  import Builder
  import opened BuilderFacts
  import opened Storage
  import opened Engine
  import opened Queries

  // ------------------------------------------------------------ keys

  /**
   * The earlier revision marks every key dependent, so `getKey` on any of its
   * descriptors with a key follows the reference: it succeeds exactly when the
   * key property holds an object whose own key property is set.
   */
  lemma EarlierKeyFollowsReference(decls: map<ClassName, ClassDecl>, c: ClassName, e: Entity)
    requires Builder.BuildSucceeds(Builder.Earlier, decls) && AllDistinct(decls) && c in decls
    requires Builder.Built(Builder.Earlier, decls)[c].keyFieldName.Some?
    ensures Builder.Built(Builder.Earlier, decls)[c].dependentKey
    ensures GetKey(Builder.Built(Builder.Earlier, decls)[c], e).Success? <==> DependeeKeySet(Builder.Built(Builder.Earlier, decls)[c], e)
  {
    var scanned := Builder.Scanned(Builder.Earlier, decls);
    var ac := scanned[c];
    assert ac == Builder.Scan(Builder.Earlier, decls.Keys, c, decls[c]).value;
    ScannedKey(Builder.Earlier, decls.Keys, c, decls[c]);
    ResolveKeepsShape(Builder.Earlier, scanned, c, decls[c], ac);
    assert Builder.Built(Builder.Earlier, decls)[c] == Builder.Resolve(Builder.Earlier, scanned, c, decls[c], ac).value;
  }

  /** A null key makes `persist` write under the fresh key it is given. */
  lemma NullKeyUsesFreshKey<C>(meta: ClassDesc, e: Entity, valid: Entity -> bool, newKey: Value, codec: Codec<C>,
                               store: Store<C>, r: Result<Value, EngineError>, mid: Store<C>, post: Store<C>)
    requires WellFormed(meta) && PersistOutcome(meta, e, valid, newKey, codec, store, r, mid, post)
    requires r.Success?
    ensures GetKey(meta, e).Success?
    ensures GetKey(meta, e).value.Null? ==> r.value == newKey
    ensures !GetKey(meta, e).value.Null? ==> r.value == GetKey(meta, e).value
  {
  }

  // ------------------------------------------------------------ the batch

  /**
   * The shape of a successful batch: each field that is neither a super
   * column nor folded into one gives one flat column under its resolved name
   * holding its own value; each super-column field gives one super column
   * under its resolved name whose sub-columns are every kept field's literal
   * column name, all holding the super-column field's own value; nothing else
   * is in the batch.
   */
  lemma BatchShape<C>(meta: ClassDesc, codec: Codec<C>, e: Entity)
    requires BatchOk(meta, codec, e)
    ensures forall k :: k in meta.fields ==> meta.fields[k].field.name in e.props
    ensures forall k :: k in meta.fields && !meta.fields[k].IsSuperColumn() && !meta.fields[k].HasSuperColumnParent() ==>
      ColumnNameFor(e, meta.fields[k]).value.Some? &&
      (ColumnNameFor(e, meta.fields[k]).value.value, Encoded(codec, e.props[meta.fields[k].field.name])) in BatchOf(meta, codec, e).columns
    ensures forall k :: k in meta.fields && meta.fields[k].IsSuperColumn() ==>
      SuperColumnNameFor(e, meta.fields[k]).value.Some? &&
      SuperColumn(SuperColumnNameFor(e, meta.fields[k]).value.value,
                  set j | j in meta.fields :: (meta.fields[j].columnName.value, Encoded(codec, e.props[meta.fields[k].field.name])))
        in BatchOf(meta, codec, e).superColumns
    ensures forall c :: c in BatchOf(meta, codec, e).columns ==>
      exists k :: k in meta.fields && !meta.fields[k].IsSuperColumn() && !meta.fields[k].HasSuperColumnParent()
               && c == (ColumnNameFor(e, meta.fields[k]).value.value, Encoded(codec, e.props[meta.fields[k].field.name]))
    ensures forall s, c :: s in BatchOf(meta, codec, e).superColumns && c in s.columns ==>
      exists k :: k in meta.fields && meta.fields[k].IsSuperColumn()
               && s.name == SuperColumnNameFor(e, meta.fields[k]).value.value
               && c.1 == Encoded(codec, e.props[meta.fields[k].field.name])
  {
    var batch := BatchOf(meta, codec, e);
    forall s, c | s in batch.superColumns && c in s.columns
      ensures exists k :: k in meta.fields && meta.fields[k].IsSuperColumn()
               && s.name == SuperColumnNameFor(e, meta.fields[k]).value.value
               && c.1 == Encoded(codec, e.props[meta.fields[k].field.name])
    {
      var k :| k in meta.fields && FieldEntry(meta, codec, e, k).value.Super? && FieldEntry(meta, codec, e, k).value.superColumn == s;
      assert meta.fields[k].IsSuperColumn();
    }
  }

  /**
   * Sub-columns are named by the literal column names, so a super-column
   * field without one (a field with `@CassandraSuperColumn`, which cannot also
   * carry `@CassandraColumn`) makes every batch of its class fail.
   */
  lemma UnnamedSubColumnStopsBatch<C>(meta: ClassDesc, codec: Codec<C>, e: Entity)
    requires exists k :: k in meta.fields && meta.fields[k].IsSuperColumn()
    requires exists k :: k in meta.fields && meta.fields[k].columnName.None?
    ensures !BatchOk(meta, codec, e)
  {
    var k :| k in meta.fields && meta.fields[k].IsSuperColumn();
    assert FieldEntry(meta, codec, e, k).Failure?;
  }

  /**
   * A class built with a kept `@CassandraSuperColumn` field, or a kept
   * `@CassandraSuperColumnName` field without `@CassandraColumn`, can never be
   * persisted: that field is a super column without a literal column name.
   */
  lemma SuperColumnClassNeverPersists<C>(rev: Builder.Revision, decls: map<ClassName, ClassDecl>, c: ClassName, i: int,
                                             codec: Codec<C>, e: Entity)
    requires Builder.BuildSucceeds(rev, decls) && AllDistinct(decls) && c in decls
    requires 0 <= i < |decls[c].fields| && Builder.Kept(decls[c].fields[i])
    requires decls[c].fields[i].superColumn.Some? || (decls[c].fields[i].superColumnName.Some? && decls[c].fields[i].column.None?)
    ensures !BatchOk(Builder.Built(rev, decls)[c], codec, e)
  {
    var d := decls[c];
    var scanned := Builder.Scanned(rev, decls);
    var ac := scanned[c];
    assert ac == Builder.Scan(rev, decls.Keys, c, d).value;
    ScannedFields(rev, decls.Keys, c, d);
    ScanFailsIff(rev, decls.Keys, c, d);
    assert !Rejected(decls.Keys, d.fields[i]);
    DescribedField(d.fields[i]);
    ResolveKeepsShape(rev, scanned, c, d, ac);
    var meta := Builder.Built(rev, decls)[c];
    assert meta == Builder.Resolve(rev, scanned, c, d, ac).value;
    var k := d.fields[i].name;
    assert k in meta.fields && meta.fields[k].IsSuperColumn() && meta.fields[k].columnName.None?;
    UnnamedSubColumnStopsBatch(meta, codec, e);
  }

  // ------------------------------------------------------------ round trip

  /** Every kept field is a plain column with a literal name, and no two share one. */
  predicate FlatLiteralColumns(meta: ClassDesc) {
    && (forall k :: k in meta.fields ==>
          meta.fields[k].columnName.Some? && !meta.fields[k].IsSuperColumn() && !meta.fields[k].HasSuperColumnParent())
    && (forall j, k :: j in meta.fields && k in meta.fields && j != k ==> meta.fields[j].columnName != meta.fields[k].columnName)
  }

  /** The serialiser reads back each kept property of `e` as its declared type. */
  predicate RoundTrips<C>(codec: Codec<C>, meta: ClassDesc, e: Entity) {
    forall k :: k in meta.fields && k in e.props ==>
      codec.decode(Encoded(codec, e.props[k]), meta.fields[k].field.typ) == e.props[k]
  }

  lemma FlatBatch<C>(meta: ClassDesc, codec: Codec<C>, e: Entity)
    requires WellFormed(meta) && FlatLiteralColumns(meta) && BatchOk(meta, codec, e)
    ensures forall k :: k in meta.fields ==> k in e.props
    ensures BatchOf(meta, codec, e).columns ==
      set k | k in meta.fields :: (meta.fields[k].columnName.value, Encoded(codec, e.props[k]))
    ensures BatchOf(meta, codec, e).superColumns == {}
  {
    forall k | k in meta.fields
      ensures k in e.props
      ensures FieldEntry(meta, codec, e, k) == Success(Flat((meta.fields[k].columnName.value, Encoded(codec, e.props[k]))))
    {
      assert meta.fields[k].field.name == k;
      assert FieldValue(codec, e, meta.fields[k]).Success?;
    }
  }

  /** With distinct names, every written cell holds exactly its own value. */
  lemma DistinctCellsWritten<V>(before: map<string, V>, cells: set<(string, V)>, after: map<string, V>, c: (string, V))
    requires Overwrites(before, cells, after) && c in cells
    requires forall x, y :: x in cells && y in cells && x.0 == y.0 ==> x == y
    ensures c.0 in after && after[c.0] == c.1
  {
    assert c.0 in NamesOf(cells);
  }

  /**
   * Persist, then `getById` at the returned key: for a class whose kept fields
   * are plain literal columns with distinct names, and a serialiser that reads
   * each value back, the object comes back with every kept property as it was
   * written (`getById` does not set the key field). The inverse column cannot
   * interfere because it goes to another column family.
   */
  lemma {:induction false} PersistThenGetById<C>(meta: ClassDesc, e: Entity, valid: Entity -> bool, newKey: Value,
                                                 codec: Codec<C>, store: Store<C>,
                                                 r: Result<Value, EngineError>, mid: Store<C>, post: Store<C>)
    requires WellFormed(meta) && FlatLiteralColumns(meta) && RoundTrips(codec, meta, e)
    requires meta.inverse ==> meta.inverseColumnFamilySuffix != Some("")
    requires PersistOutcome(meta, e, valid, newKey, codec, store, r, mid, post) && r.Success?
    ensures ReadBack(meta, codec, RowAt(post, meta.columnFamilyName, r.value))
      == Some(Entity(meta.clazz, map k | k in meta.fields :: e.props[k]))
  {
    var key := r.value;
    var cf := meta.columnFamilyName;
    FlatBatch(meta, codec, e);
    PrimaryRowUntouchedByInverse(meta, e, valid, newKey, codec, store, r, mid, post);
    var row := RowAt(mid, cf, key);
    FlatColumnsWritten(meta, codec, e, RowAt(store, cf, key).columns, row.columns);
    ReadBackOfWritten(meta, codec, e, row);
  }

  /** A row holding each kept field's encoded value reads back as those values. */
  lemma ReadBackOfWritten<C>(meta: ClassDesc, codec: Codec<C>, e: Entity, row: Row<C>)
    requires FlatLiteralColumns(meta) && RoundTrips(codec, meta, e) && (forall k :: k in meta.fields ==> k in e.props)
    requires forall k :: k in meta.fields ==>
      meta.fields[k].columnName.value in row.columns && row.columns[meta.fields[k].columnName.value] == Encoded(codec, e.props[k])
    ensures ReadBack(meta, codec, row) == Some(Entity(meta.clazz, map k | k in meta.fields :: e.props[k]))
  {
    assert AllColumnsPresent(meta, row.columns);
    var read := map k | k in meta.fields ::
      codec.decode(row.columns[meta.fields[k].columnName.value], meta.fields[k].field.typ);
    var written := map k | k in meta.fields :: e.props[k];
    forall k | k in meta.fields ensures read[k] == written[k] {
      assert row.columns[meta.fields[k].columnName.value] == Encoded(codec, e.props[k]);
    }
    assert read == written;
  }

  /** The inverse column goes to another column family, so the primary row is the one the batch left. */
  lemma PrimaryRowUntouchedByInverse<C>(meta: ClassDesc, e: Entity, valid: Entity -> bool, newKey: Value,
                                        codec: Codec<C>, store: Store<C>,
                                        r: Result<Value, EngineError>, mid: Store<C>, post: Store<C>)
    requires WellFormed(meta) && (meta.inverse ==> meta.inverseColumnFamilySuffix != Some(""))
    requires PersistOutcome(meta, e, valid, newKey, codec, store, r, mid, post) && r.Success?
    ensures BatchOk(meta, codec, e)
    ensures BatchWritten(store, meta.columnFamilyName, r.value, BatchOf(meta, codec, e), mid)
    ensures RowAt(post, meta.columnFamilyName, r.value) == RowAt(mid, meta.columnFamilyName, r.value)
  {
    if meta.inverse && InverseColumn(meta, e).Success? && InverseColumn(meta, e).value.Some? {
      RangeTargetsInverseFamily(meta);
    }
  }

  /** Under a flat batch with distinct names, each kept field's column holds its encoded value. */
  lemma FlatColumnsWritten<C>(meta: ClassDesc, codec: Codec<C>, e: Entity, before: map<string, C>, after: map<string, C>)
    requires FlatLiteralColumns(meta) && (forall k :: k in meta.fields ==> k in e.props)
    requires Overwrites(before, set k | k in meta.fields :: (meta.fields[k].columnName.value, Encoded(codec, e.props[k])), after)
    ensures forall k :: k in meta.fields ==>
      meta.fields[k].columnName.value in after && after[meta.fields[k].columnName.value] == Encoded(codec, e.props[k])
  {
    var cells := set k | k in meta.fields :: (meta.fields[k].columnName.value, Encoded(codec, e.props[k]));
    forall x, y | x in cells && y in cells && x.0 == y.0 ensures x == y {
      var i :| i in meta.fields && x == (meta.fields[i].columnName.value, Encoded(codec, e.props[i]));
      var j :| j in meta.fields && y == (meta.fields[j].columnName.value, Encoded(codec, e.props[j]));
      assert i == j;
    }
    forall k | k in meta.fields
      ensures meta.fields[k].columnName.value in after && after[meta.fields[k].columnName.value] == Encoded(codec, e.props[k])
    {
      DistinctCellsWritten(before, cells, after, (meta.fields[k].columnName.value, Encoded(codec, e.props[k])));
    }
  }

  // ------------------------------------------------------------ the inverse column

  /**
   * The inverse column is named by the inverse-column-name property; its value
   * is the name of the single super-column field when the class has one, else
   * the column name of its single field. Which field is visited first does
   * not matter.
   */
  lemma InverseColumnCases(meta: ClassDesc, e: Entity)
    requires WellFormed(meta) && meta.inverse
    requires InverseColumn(meta, e).Success?
    ensures InverseColumn(meta, e).value.Some?
    ensures var cell := InverseColumn(meta, e).value.value;
      && meta.inverseColumnNameField.Some? && meta.inverseColumnNameField.value in e.props
      && e.props[meta.inverseColumnNameField.value] == Atom(cell.0)
      && (forall k :: k in meta.fields && meta.fields[k].IsSuperColumn() ==>
            SuperColumnNameFor(e, meta.fields[k]) == Success(Some(cell.1)))
      && (!meta.hasSuperColumn ==> exists k :: meta.fields.Keys == {k} && ColumnNameFor(e, meta.fields[k]) == Success(Some(cell.1)))
  {
    var supers := Builder.SuperColumnKeys(meta.fields);
    if supers != {} {
      forall k | k in meta.fields && meta.fields[k].IsSuperColumn()
        ensures SuperColumnNameFor(e, meta.fields[k]) == InverseValue(meta, e)
      {
        var s :| s in supers && InverseValue(meta, e) == SuperColumnNameFor(e, meta.fields[s]);
        AtMostOne(supers, k, s);
      }
    } else {
      var k :| k in meta.fields && InverseValue(meta, e) == ColumnNameFor(e, meta.fields[k]);
      forall j | j in meta.fields ensures j == k {
        assert j !in supers && k !in supers;
        assert j in Builder.ColumnKeys(meta.fields) && k in Builder.ColumnKeys(meta.fields);
        AtMostOne(Builder.ColumnKeys(meta.fields), j, k);
      }
      assert meta.fields.Keys == {k};
      forall j | j in meta.fields ensures !meta.fields[j].IsSuperColumn() {
        assert j !in supers;
      }
    }
  }

  /** The inverse column is written at the entity key in the inverse column family. */
  lemma InverseWrittenAtEntityKey<C>(meta: ClassDesc, e: Entity, valid: Entity -> bool, newKey: Value, codec: Codec<C>,
                                     store: Store<C>, r: Result<Value, EngineError>, mid: Store<C>, post: Store<C>)
    requires WellFormed(meta) && PersistOutcome(meta, e, valid, newKey, codec, store, r, mid, post)
    requires r.Success? && meta.inverse
    ensures InverseColumn(meta, e).Success? && InverseColumn(meta, e).value.Some?
    ensures var cell := InverseColumn(meta, e).value.value;
      var row := RowAt(post, SetColumnFamilyName(meta, true), r.value);
      cell.0 in row.columns && row.columns[cell.0] == Encoded(codec, Atom(cell.1))
  {
    InverseColumnCases(meta, e);
  }

  /**
   * A failing inverse write is reported after the batch is already in the
   * store: the row holds the batch even though `persist` throws.
   */
  lemma InverseFailureKeepsBatch<C>(meta: ClassDesc, e: Entity, valid: Entity -> bool, newKey: Value, codec: Codec<C>,
                                    store: Store<C>, r: Result<Value, EngineError>, mid: Store<C>, post: Store<C>)
    requires WellFormed(meta) && PersistOutcome(meta, e, valid, newKey, codec, store, r, mid, post)
    requires valid(e) && GetKey(meta, e).Success? && BatchOk(meta, codec, e) && InverseColumn(meta, e).Failure?
    ensures r == Failure(Wrapped(InverseColumn(meta, e).error))
    ensures BatchWritten(store, meta.columnFamilyName, ResolvedKey(GetKey(meta, e).value, newKey), BatchOf(meta, codec, e), post)
  {
  }

  /** An inverse class without kept fields has no inverse value: its inverse write always fails. */
  lemma EmptyInverseClassFails(meta: ClassDesc, e: Entity)
    requires WellFormed(meta) && meta.inverse && meta.fields == map[]
    ensures InverseColumn(meta, e).Failure?
  {
    assert Builder.SuperColumnKeys(meta.fields) == {};
  }

  // ------------------------------------------------------------ reads

  /**
   * `getById` gives all or nothing: a rebuilt object has exactly the kept
   * fields, and a kept field without a literal column name (a
   * `@CassandraSuperColumn` field, or a name annotation without
   * `@CassandraColumn`) makes every read give null.
   */
  lemma ReadBackAllOrNothing<C>(meta: ClassDesc, codec: Codec<C>, row: Row<C>)
    ensures ReadBack(meta, codec, row).Some? ==> ReadBack(meta, codec, row).value.props.Keys == meta.fields.Keys
    ensures (exists k :: k in meta.fields && meta.fields[k].columnName.None?) ==> ReadBack(meta, codec, row).None?
    ensures ReadBack(meta, codec, row).None? <==>
      exists k :: k in meta.fields && (meta.fields[k].columnName.None? || meta.fields[k].columnName.value !in row.columns)
  {
  }

  /**
   * One rebuilt object: the key field is set to the row key and every other
   * kept field is converted from its column; it fails exactly when a kept
   * column is missing or the class has no key field.
   */
  lemma RebuiltShape<C>(meta: ClassDesc, row: RowSlice<C>, conv: (C, FieldDesc) -> Value)
    ensures Rebuilt(meta, row, conv).Failure? <==> !AllColumnsPresent(meta, row.columns) || meta.keyFieldName.None?
    ensures Rebuilt(meta, row, conv).Success? ==>
      var out := Rebuilt(meta, row, conv).value;
      && meta.keyFieldName.Some?
      && out.clazz == meta.clazz
      && out.props.Keys == meta.fields.Keys + {meta.keyFieldName.value}
      && out.props[meta.keyFieldName.value] == row.key
      && (forall k :: k in meta.fields && k != meta.keyFieldName.value ==>
            out.props[k] == conv(row.columns[meta.fields[k].columnName.value], meta.fields[k]))
  {
  }

  /**
   * `getResultList` gives one object per row, in row order, each the rebuilt
   * object of its row; it fails exactly when some row fails.
   */
  lemma {:induction false} RebuiltAllShape<C>(meta: ClassDesc, rows: seq<RowSlice<C>>, conv: (C, FieldDesc) -> Value)
    ensures RebuiltAll(meta, rows, conv).Failure? <==> exists i :: 0 <= i < |rows| && Rebuilt(meta, rows[i], conv).Failure?
    ensures RebuiltAll(meta, rows, conv).Success? ==>
      && |RebuiltAll(meta, rows, conv).value| == |rows|
      && forall i :: 0 <= i < |rows| ==>
           Rebuilt(meta, rows[i], conv).Success? && RebuiltAll(meta, rows, conv).value[i] == Rebuilt(meta, rows[i], conv).value
    decreases |rows|
  {
    if rows != [] {
      RebuiltAllShape(meta, rows[1..], conv);
      if exists i :: 0 <= i < |rows[1..]| && Rebuilt(meta, rows[1..][i], conv).Failure? {
        var i :| 0 <= i < |rows[1..]| && Rebuilt(meta, rows[1..][i], conv).Failure?;
        assert rows[1..][i] == rows[i + 1];
      }
      if exists i :: 0 <= i < |rows| && Rebuilt(meta, rows[i], conv).Failure? {
        var i :| 0 <= i < |rows| && Rebuilt(meta, rows[i], conv).Failure?;
        if i > 0 {
          assert rows[1..][i - 1] == rows[i];
        }
      }
      if RebuiltAll(meta, rows, conv).Success? {
        var out := RebuiltAll(meta, rows, conv).value;
        forall i | 0 <= i < |rows|
          ensures Rebuilt(meta, rows[i], conv).Success? && out[i] == Rebuilt(meta, rows[i], conv).value
        {
          if i > 0 {
            assert rows[1..][i - 1] == rows[i];
          }
        }
      }
    }
  }

  /**
   * A class annotated `@CassandraInverseColumnFamily` with its default suffix
   * keeps its inverse columns in the family named by its storage name followed
   * by `Inverse`.
   */
  lemma DefaultSuffixInverseFamily(rev: Builder.Revision, decls: map<ClassName, ClassDecl>, c: ClassName)
    requires Builder.BuildSucceeds(rev, decls) && c in decls
    requires decls[c].inverseColumnFamily == Some(InverseColumnFamilyAnn(DefaultInverseSuffix))
    ensures Builder.Built(rev, decls)[c].inverse
    ensures SetColumnFamilyName(Builder.Built(rev, decls)[c], true) == Builder.Built(rev, decls)[c].columnFamilyName + "Inverse"
  {
    var scanned := Builder.Scanned(rev, decls);
    var ac := scanned[c];
    assert ac == Builder.Scan(rev, decls.Keys, c, decls[c]).value;
    StorageNameRule(rev, decls.Keys, c, decls[c]);
    ResolveKeepsShape(rev, scanned, c, decls[c], ac);
    assert Builder.Built(rev, decls)[c] == Builder.Resolve(rev, scanned, c, decls[c], ac).value;
  }

  /** Asking a range for the inverse side reads the column family `handleInverse` writes to, which is not the primary one. */
  lemma RangeTargetsInverseFamily(meta: ClassDesc)
    requires WellFormed(meta) && meta.inverse && meta.inverseColumnFamilySuffix != Some("")
    ensures SetColumnFamilyName(meta, true) == meta.columnFamilyName + meta.inverseColumnFamilySuffix.value
    ensures SetColumnFamilyName(meta, true) != meta.columnFamilyName
    ensures SetColumnFamilyName(meta, false) == meta.columnFamilyName
  {
    assert |SetColumnFamilyName(meta, true)| > |meta.columnFamilyName|;
  }
}
