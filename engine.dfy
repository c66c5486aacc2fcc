/**
 * The runtime engine of the entity manager: key resolution, the persist
 * batch and the inverse-index column, reading objects back, and the shape
 * of the queries it issues. Both revisions share this code; they differ in
 * the serialiser they use (bytes or strings) and in how rows of an index
 * query are converted.
 */
module Engine {
  import opened Results
  import opened Annotations
  import opened Structure
  import Builder
  import opened BuilderFacts
  import opened Storage

  /** What the engine throws, or what a library it calls throws. */
  datatype EngineError =
    | NotMapped(clazz: ClassName)                           // IllegalStateException of getAnnotatedClass
    | ConstraintViolation                                   // the validator found violations
    | NullBean                                              // BeanUtils on a null object
    | NullPropertyName                                      // BeanUtils with a null property name
    | NoSuchProperty(name: string)                          // BeanUtils on a property the object lacks
    | NotText                                               // a name property holding an entity reference
    | NullDependee(clazz: ClassName, field: Option<string>) // getKey's IllegalStateException
    | NullName                                              // a column or super column created with a null name
    | NullValue                                             // a column created with a null value
    | NullPointer                                           // a dereferenced null
    | NoSecondaryIndex(property: string)                    // IllegalArgumentException of getByPropertyValue
    | Wrapped(cause: EngineError)                           // RuntimeException(cause)

  // ------------------------------------------------------------ reflection stand-ins

  /** `BeanUtils.getProperty`: the null object is checked first, then the name, then the property. */
  function GetProperty(bean: Value, name: Option<string>): Result<Value, EngineError> {
    if bean.Null? then Failure(NullBean)
    else if name.None? then Failure(NullPropertyName)
    else if bean.Atom? || name.value !in bean.target.props then Failure(NoSuchProperty(name.value))
    else Success(bean.target.props[name.value])
  }

  /** A property read as a column name: null stays null, a scalar gives its text. */
  function AsName(v: Value): Result<Option<string>, EngineError> {
    match v
    case Null => Success(None)
    case Atom(t) => Success(Some(t))
    case Ref(_) => Failure(NotText)
  }

  /** `getAnnotatedClass`: the descriptor of a mapped class. */
  function GetAnnotatedClass(classes: map<ClassName, ClassDesc>, clazz: ClassName): (r: Result<ClassDesc, EngineError>)
    ensures r.Failure? <==> clazz !in classes
    ensures r.Failure? ==> r.error == NotMapped(clazz)
    ensures r.Success? ==> r.value == classes[clazz]
  {
    if clazz in classes then Success(classes[clazz]) else Failure(NotMapped(clazz))
  }

  // ------------------------------------------------------------ keys

  /** The dependee of `e` holds a non-null value under the dependent key's target key name. */
  predicate DependeeKeySet(meta: ClassDesc, e: Entity) {
    && meta.keyFieldName.Some? && meta.keyFieldName.value in e.props
    && e.props[meta.keyFieldName.value].Ref?
    && meta.dependentKeyFieldName.Some?
    && meta.dependentKeyFieldName.value in e.props[meta.keyFieldName.value].target.props
    && e.props[meta.keyFieldName.value].target.props[meta.dependentKeyFieldName.value] != Null
  }

  /** The body of `getKey`'s try block. */
  function KeyOf(meta: ClassDesc, e: Entity): Result<Value, EngineError> {
    var held :- GetProperty(Ref(e), meta.keyFieldName);
    if !meta.dependentKey then Success(held)
    else
      var key :- GetProperty(held, meta.dependentKeyFieldName);
      if key.Null? then Failure(NullDependee(meta.clazz, meta.keyFieldName)) else Success(key)
  }

  /**
   * `getKey`: the key property of `e`, or, for a dependent key, the referenced
   * object's own key property, which must not be null. Every failure is
   * rethrown wrapped.
   */
  function GetKey(meta: ClassDesc, e: Entity): (r: Result<Value, EngineError>)
    ensures !meta.dependentKey ==>
      (r.Success? <==> meta.keyFieldName.Some? && meta.keyFieldName.value in e.props)
    ensures !meta.dependentKey && r.Success? ==> r.value == e.props[meta.keyFieldName.value]
    ensures meta.dependentKey ==> (r.Success? <==> DependeeKeySet(meta, e))
    ensures meta.dependentKey && r.Success? ==>
      r.value == e.props[meta.keyFieldName.value].target.props[meta.dependentKeyFieldName.value]
    ensures meta.dependentKey && DependeeKeySet(meta, e) ==> r.value != Null
    ensures r.Failure? ==> r.error.Wrapped?
  {
    match KeyOf(meta, e)
    case Success(k) => Success(k)
    case Failure(err) => Failure(Wrapped(err))
  }

  /** A null key makes `persist` insert under a freshly generated key. */
  function ResolvedKey(key: Value, newKey: Value): (r: Value)
    ensures key.Null? ==> r == newKey
    ensures !key.Null? ==> r == key
  {
    if key.Null? then newKey else key
  }

  // ------------------------------------------------------------ column names

  /**
   * `getColumnName(e, field)` and `getSuperColumnName(e, field)`: the literal
   * name when there is one; otherwise the `nameField` property of the field's
   * own value, which may be null.
   */
  function ResolveName(e: Entity, fieldName: string, literal: Option<string>, nameField: Option<string>)
    : (r: Result<Option<string>, EngineError>)
    ensures literal.Some? ==> r == Success(literal)
    ensures literal.None? ==>
      (r.Success? <==> fieldName in e.props && e.props[fieldName].Ref? && nameField.Some?
                       && nameField.value in e.props[fieldName].target.props
                       && !e.props[fieldName].target.props[nameField.value].Ref?)
    ensures literal.None? && r.Success? ==>
      var v := e.props[fieldName].target.props[nameField.value];
      r.value == (if v.Atom? then Some(v.text) else None)
  {
    if literal.Some? then Success(literal)
    else
      var target :- GetProperty(Ref(e), Some(fieldName));
      var v :- GetProperty(target, nameField);
      AsName(v)
  }

  function ColumnNameFor(e: Entity, f: FieldDesc): Result<Option<string>, EngineError> {
    ResolveName(e, f.field.name, f.columnName, f.columnNameField)
  }

  function SuperColumnNameFor(e: Entity, f: FieldDesc): Result<Option<string>, EngineError> {
    ResolveName(e, f.field.name, f.superColumnName, f.superColumnNameField)
  }

  // ------------------------------------------------------------ the persist batch

  datatype SuperColumn<C(==)> = SuperColumn(name: string, columns: set<(string, C)>)

  /** What one field contributes to the batch. */
  datatype Entry<C(==)> = Flat(column: (string, C)) | Super(superColumn: SuperColumn<C>) | NoEntry

  datatype Batch<C(==)> = Batch(columns: set<(string, C)>, superColumns: set<SuperColumn<C>>)

  /** The sub-columns of a super column, addressed by (super-column name, column name). */
  function SuperCells<C(==)>(batch: Batch<C>): set<((string, string), C)> {
    set s, c | s in batch.superColumns && c in s.columns :: ((s.name, c.0), c.1)
  }

  /** The column value of a field: its property, encoded, or the empty value for null. */
  function FieldValue<C>(codec: Codec<C>, e: Entity, f: FieldDesc): Result<C, EngineError> {
    var v :- GetProperty(Ref(e), Some(f.field.name));
    Success(Encoded(codec, v))
  }

  /** One sub-column per kept field, under its literal column name, each holding `v`. */
  function SubColumns<C(==)>(meta: ClassDesc, v: C): Result<set<(string, C)>, EngineError> {
    if exists k :: k in meta.fields && meta.fields[k].columnName.None? then Failure(NullName)
    else Success(set k | k in meta.fields :: (meta.fields[k].columnName.value, v))
  }

  /** The value is read first; a super column builds its sub-columns before its name. */
  function FieldEntry<C(==)>(meta: ClassDesc, codec: Codec<C>, e: Entity, k: string): Result<Entry<C>, EngineError>
    requires k in meta.fields
  {
    var f := meta.fields[k];
    var v :- FieldValue(codec, e, f);
    if f.IsSuperColumn() then
      var subs :- SubColumns(meta, v);
      var name :- SuperColumnNameFor(e, f);
      if name.None? then Failure(NullName) else Success(Super(SuperColumn(name.value, subs)))
    else if !f.HasSuperColumnParent() then
      var name :- ColumnNameFor(e, f);
      if name.None? then Failure(NullName) else Success(Flat((name.value, v)))
    else Success(NoEntry)
  }

  predicate BatchOk<C(==)>(meta: ClassDesc, codec: Codec<C>, e: Entity) {
    forall k :: k in meta.fields ==> FieldEntry(meta, codec, e, k).Success?
  }

  function BatchOf<C(==)>(meta: ClassDesc, codec: Codec<C>, e: Entity): Batch<C>
    requires BatchOk(meta, codec, e)
  {
    Batch(set k | k in meta.fields && FieldEntry(meta, codec, e, k).value.Flat? :: FieldEntry(meta, codec, e, k).value.column,
          set k | k in meta.fields && FieldEntry(meta, codec, e, k).value.Super? :: FieldEntry(meta, codec, e, k).value.superColumn)
  }

  function BatchErrors<C(==)>(meta: ClassDesc, codec: Codec<C>, e: Entity): set<EngineError> {
    set k | k in meta.fields && FieldEntry(meta, codec, e, k).Failure? :: FieldEntry(meta, codec, e, k).error
  }

  /** The inner loop of `persist` over every kept field (lines 433-437). */
  method BuildSubColumns<C(==)>(meta: ClassDesc, v: C) returns (r: Result<set<(string, C)>, EngineError>)
    ensures r == SubColumns(meta, v)
  {
    var subs: set<(string, C)> := {};
    var todo := meta.fields.Keys;
    ghost var done: set<string> := {};
    while todo != {}
      invariant todo + done == meta.fields.Keys && todo !! done
      invariant forall k :: k in done ==> meta.fields[k].columnName.Some?
      invariant subs == set k | k in done :: (meta.fields[k].columnName.value, v)
    {
      var k :| k in todo;
      var name := meta.fields[k].columnName;
      if name.None? {
        return Failure(NullName);
      }
      subs := subs + {(name.value, v)};
      todo := todo - {k};
      done := done + {k};
    }
    return Success(subs);
  }

  /** One iteration of the field loop of `persist`. */
  method BuildEntry<C(==)>(meta: ClassDesc, codec: Codec<C>, e: Entity, k: string) returns (r: Result<Entry<C>, EngineError>)
    requires k in meta.fields
    ensures r == FieldEntry(meta, codec, e, k)
  {
    var f := meta.fields[k];
    var v := FieldValue(codec, e, f);
    if v.Failure? {
      return Failure(v.error);
    }
    if f.IsSuperColumn() {
      var subs := BuildSubColumns(meta, v.value);
      if subs.Failure? {
        return Failure(subs.error);
      }
      var name := SuperColumnNameFor(e, f);
      if name.Failure? {
        return Failure(name.error);
      }
      if name.value.None? {
        return Failure(NullName);
      }
      r := Success(Super(SuperColumn(name.value.value, subs.value)));
    } else if !f.HasSuperColumnParent() {
      var name := ColumnNameFor(e, f);
      if name.Failure? {
        return Failure(name.error);
      }
      if name.value.None? {
        return Failure(NullName);
      }
      r := Success(Flat((name.value.value, v.value)));
    } else {
      r := Success(NoEntry);
    }
  }

  /**
   * The field loop of `persist` (lines 424-447): the batch is the same in any
   * iteration order; a failure is the failure of some field.
   */
  method BuildBatch<C(==)>(meta: ClassDesc, codec: Codec<C>, e: Entity) returns (r: Result<Batch<C>, EngineError>)
    ensures r.Success? <==> BatchOk(meta, codec, e)
    ensures r.Success? ==> r.value == BatchOf(meta, codec, e)
    ensures r.Failure? ==> r.error in BatchErrors(meta, codec, e)
  {
    var columns: set<(string, C)> := {};
    var superColumns: set<SuperColumn<C>> := {};
    var todo := meta.fields.Keys;
    ghost var done: set<string> := {};
    while todo != {}
      invariant todo + done == meta.fields.Keys && todo !! done
      invariant forall k :: k in done ==> FieldEntry(meta, codec, e, k).Success?
      invariant columns == set k | k in done && FieldEntry(meta, codec, e, k).value.Flat? :: FieldEntry(meta, codec, e, k).value.column
      invariant superColumns == set k | k in done && FieldEntry(meta, codec, e, k).value.Super? :: FieldEntry(meta, codec, e, k).value.superColumn
    {
      var k :| k in todo;
      var entry := BuildEntry(meta, codec, e, k);
      if entry.Failure? {
        assert entry.error in BatchErrors(meta, codec, e);
        return Failure(entry.error);
      }
      match entry.value {
        case Flat(c) => columns := columns + {c};
        case Super(s) => superColumns := superColumns + {s};
        case NoEntry =>
      }
      todo := todo - {k};
      done := done + {k};
    }
    return Success(Batch(columns, superColumns));
  }

  /** The batch landed in one row: flat columns and sub-columns written as `Overwrites` says, every other row unchanged. */
  ghost predicate BatchWritten<C>(store: Store<C>, cf: string, key: Value, batch: Batch<C>, post: Store<C>) {
    && Overwrites(RowAt(store, cf, key).columns, batch.columns, RowAt(post, cf, key).columns)
    && Overwrites(RowAt(store, cf, key).superCells, SuperCells(batch), RowAt(post, cf, key).superCells)
    && (forall cf', key' :: (cf', key') != (cf, key) ==> RowAt(post, cf', key') == RowAt(store, cf', key'))
  }

  /** `mutator.execute()` on the insertions of one batch. */
  method ExecuteBatch<C(==)>(store: Store<C>, cf: string, key: Value, batch: Batch<C>) returns (post: Store<C>)
    ensures BatchWritten(store, cf, key, batch, post)
  {
    var row := RowAt(store, cf, key);
    var columns := WriteCells(row.columns, batch.columns);
    var cells := WriteCells(row.superCells, SuperCells(batch));
    post := PutRow(store, cf, key, Row(columns, cells));
  }

  // ------------------------------------------------------------ the inverse column

  /** `setColumnFamilyName`: the inverse column family is addressed iff the class has one and it is asked for. */
  function SetColumnFamilyName(meta: ClassDesc, inverse: bool): (r: string)
    ensures meta.inverse && inverse && meta.inverseColumnFamilySuffix.Some? ==>
      r == meta.columnFamilyName + meta.inverseColumnFamilySuffix.value
    ensures !(meta.inverse && inverse) ==> r == meta.columnFamilyName
  {
    if meta.inverse && inverse then
      // Java string concatenation prints a null suffix as "null"
      meta.columnFamilyName + meta.inverseColumnFamilySuffix.GetOr("null")
    else meta.columnFamilyName
  }

  lemma AtMostOne(s: set<string>, a: string, b: string)
    requires |s| <= 1 && a in s && b in s
    ensures a == b
  {
    var rest := s - {a};
    assert |rest| == |s| - 1;
    assert rest == {};
  }

  /**
   * The inverse value: the name of the (single) super-column field, or, when
   * the class has none, the column name of its (single) field, or null.
   */
  ghost function InverseValue(meta: ClassDesc, e: Entity): Result<Option<string>, EngineError>
    requires WellFormed(meta) && meta.inverse
  {
    if Builder.SuperColumnKeys(meta.fields) != {} then
      var k :| k in Builder.SuperColumnKeys(meta.fields);
      SuperColumnNameFor(e, meta.fields[k])
    else if meta.fields != map[] then
      var k :| k in meta.fields;
      ColumnNameFor(e, meta.fields[k])
    else Success(None)
  }

  /** The loop of `handleInverse` (lines 505-513); the field-count rule makes it order independent. */
  method FindInverseValue(meta: ClassDesc, e: Entity) returns (r: Result<Option<string>, EngineError>)
    requires WellFormed(meta) && meta.inverse
    ensures r == InverseValue(meta, e)
  {
    var supers := Builder.SuperColumnKeys(meta.fields);
    var todo := meta.fields.Keys;
    r := Success(None);
    while todo != {}
      invariant todo <= meta.fields.Keys
      invariant supers * todo == supers
      invariant meta.hasSuperColumn ==> todo != {}
      invariant !meta.hasSuperColumn ==> todo == meta.fields.Keys
    {
      var k :| k in todo;
      var f := meta.fields[k];
      if f.IsSuperColumn() {
        assert k in supers;
        forall j | j in supers ensures j == k {
          AtMostOne(supers, j, k);
        }
        r := SuperColumnNameFor(e, f);
        return;
      } else if !meta.hasSuperColumn {
        assert supers == {};
        forall j | j in meta.fields ensures j == k {
          assert j in Builder.ColumnKeys(meta.fields) && k in Builder.ColumnKeys(meta.fields);
          AtMostOne(Builder.ColumnKeys(meta.fields), j, k);
        }
        r := ColumnNameFor(e, f);
        return;
      }
      assert k !in supers;
      todo := todo - {k};
    }
    assert supers == {} && meta.fields == map[];
  }

  /** The inverse column, (name, value), or none when the class is not inverse. */
  ghost function InverseColumn(meta: ClassDesc, e: Entity): Result<Option<(string, string)>, EngineError>
    requires WellFormed(meta)
  {
    if !meta.inverse then Success(None)
    else
      var nameValue :- GetProperty(Ref(e), meta.inverseColumnNameField);
      var name :- AsName(nameValue);
      var value :- InverseValue(meta, e);
      if name.None? then Failure(NullName)
      else if value.None? then Failure(NullValue)
      else Success(Some((name.value, value.value)))
  }

  /** The store after inserting the inverse column at the entity key of the inverse column family. */
  function WithInverse<C>(store: Store<C>, meta: ClassDesc, key: Value, cell: (string, string), codec: Codec<C>): Store<C> {
    var cf := SetColumnFamilyName(meta, true);
    var row := RowAt(store, cf, key);
    PutRow(store, cf, key, row.(columns := row.columns[cell.0 := Encoded(codec, Atom(cell.1))]))
  }

  /** `handleInverse`: one immediate insertion into the inverse column family, when the class is inverse. */
  method HandleInverse<C>(meta: ClassDesc, e: Entity, key: Value, codec: Codec<C>, store: Store<C>)
    returns (err: Option<EngineError>, post: Store<C>)
    requires WellFormed(meta)
    ensures InverseColumn(meta, e).Failure? ==> err == Some(InverseColumn(meta, e).error) && post == store
    ensures InverseColumn(meta, e) == Success(None) ==> err.None? && post == store
    ensures InverseColumn(meta, e).Success? && InverseColumn(meta, e).value.Some? ==>
      err.None? && post == WithInverse(store, meta, key, InverseColumn(meta, e).value.value, codec)
  {
    post := store;
    if !meta.inverse {
      return None, post;
    }
    var nameValue := GetProperty(Ref(e), meta.inverseColumnNameField);
    if nameValue.Failure? {
      return Some(nameValue.error), post;
    }
    var name := AsName(nameValue.value);
    if name.Failure? {
      return Some(name.error), post;
    }
    var value := FindInverseValue(meta, e);
    if value.Failure? {
      return Some(value.error), post;
    }
    if name.value.None? {
      return Some(NullName), post;
    }
    if value.value.None? {
      return Some(NullValue), post;
    }
    post := WithInverse(store, meta, key, (name.value.value, value.value.value), codec);
    err := None;
  }

  // ------------------------------------------------------------ persist

  /**
   * Everything `persist` may do, order independently: give up before any
   * write (unmapped class, violations, key failure, batch failure), or write
   * the batch at the resolved key (`mid`) and then the inverse column, whose
   * failure is reported after the batch is already written.
   */
  ghost predicate PersistOutcome<C>(meta: ClassDesc, e: Entity, valid: Entity -> bool, newKey: Value,
                                        codec: Codec<C>, store: Store<C>,
                                        r: Result<Value, EngineError>, mid: Store<C>, post: Store<C>)
    requires WellFormed(meta)
  {
    if !valid(e) then r == Failure(ConstraintViolation) && post == store
    else if GetKey(meta, e).Failure? then r == GetKey(meta, e).PropagateFailure() && post == store
    else
      var key := ResolvedKey(GetKey(meta, e).value, newKey);
      if !BatchOk(meta, codec, e) then
        && r.Failure? && r.error.Wrapped? && r.error.cause in BatchErrors(meta, codec, e)
        && post == store
      else
        && BatchWritten(store, meta.columnFamilyName, key, BatchOf(meta, codec, e), mid)
        && match InverseColumn(meta, e)
           case Failure(err) => r == Failure(Wrapped(err)) && post == mid
           case Success(None) => r == Success(key) && post == mid
           case Success(Some(cell)) => r == Success(key) && post == WithInverse(mid, meta, key, cell, codec)
  }

  /**
   * `persist(e)`: validation, key resolution (a fresh key for a null one),
   * the batch of flat and super columns, then the inverse column. On success
   * it returns the key the row was written under (the source returns `e`).
   */
  method Persist<C(==)>(classes: map<ClassName, ClassDesc>, e: Entity, valid: Entity -> bool, newKey: Value,
                        codec: Codec<C>, store: Store<C>)
    returns (r: Result<Value, EngineError>, ghost mid: Store<C>, post: Store<C>)
    requires Registered(classes)
    ensures e.clazz !in classes ==> r == Failure(NotMapped(e.clazz)) && post == store
    ensures e.clazz in classes ==> PersistOutcome(classes[e.clazz], e, valid, newKey, codec, store, r, mid, post)
  {
    mid, post := store, store;
    var found := GetAnnotatedClass(classes, e.clazz);
    if found.Failure? {
      return found.PropagateFailure(), mid, post;
    }
    var meta := found.value;
    if !valid(e) {
      return Failure(ConstraintViolation), mid, post;
    }
    var key := GetKey(meta, e);
    if key.Failure? {
      return key.PropagateFailure(), mid, post;
    }
    var rowKey := ResolvedKey(key.value, newKey);
    var batch := BuildBatch(meta, codec, e);
    if batch.Failure? {
      return Failure(Wrapped(batch.error)), mid, post;
    }
    var written := ExecuteBatch(store, meta.columnFamilyName, rowKey, batch.value);
    mid := written;
    var err;
    err, post := HandleInverse(meta, e, rowKey, codec, written);
    if err.Some? {
      return Failure(Wrapped(err.value)), mid, post;
    }
    r := Success(rowKey);
  }
}
