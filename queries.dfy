/**
 * The read side of the runtime engine: `getById`, the row-to-object loop of
 * `getResultList`, the queries of `getByPropertyValue` and both `getList`
 * methods, and `fillColumnNames`.
 */
module Queries {
  import opened Results
  import opened Annotations
  import opened Structure
  import Builder
  import opened BuilderFacts
  import opened Storage
  import opened Engine

  // ------------------------------------------------------------ getById

  /** Every kept field has a literal column name present in `columns`. */
  predicate AllColumnsPresent<C>(meta: ClassDesc, columns: map<string, C>) {
    forall k :: k in meta.fields ==> meta.fields[k].columnName.Some? && meta.fields[k].columnName.value in columns
  }

  /**
   * What `getById` gives for one row: a new instance with every kept field
   * set to its column decoded as the field's declared type, or null as soon
   * as one column cannot be read.
   */
  function ReadBack<C>(meta: ClassDesc, codec: Codec<C>, row: Row<C>): Option<Entity> {
    if AllColumnsPresent(meta, row.columns) then
      Some(Entity(meta.clazz, map k | k in meta.fields ::
        codec.decode(row.columns[meta.fields[k].columnName.value], meta.fields[k].field.typ)))
    else None
  }

  /** The read loop of `getById` over the kept fields (lines 343-350). */
  method ReadFields<C>(meta: ClassDesc, codec: Codec<C>, row: Row<C>) returns (r: Option<Entity>)
    ensures r == ReadBack(meta, codec, row)
  {
    var props: map<string, Value> := map[];
    var todo := meta.fields.Keys;
    while todo != {}
      invariant todo <= meta.fields.Keys
      invariant forall k :: k in meta.fields && k !in todo ==>
        meta.fields[k].columnName.Some? && meta.fields[k].columnName.value in row.columns
      invariant props == map k | k in meta.fields && k !in todo ::
        codec.decode(row.columns[meta.fields[k].columnName.value], meta.fields[k].field.typ)
    {
      var k :| k in todo;
      var f := meta.fields[k];
      if f.columnName.None? || f.columnName.value !in row.columns {
        return None;
      }
      props := props[k := codec.decode(row.columns[f.columnName.value], f.field.typ)];
      todo := todo - {k};
    }
    assert AllColumnsPresent(meta, row.columns);
    assert props == map k | k in meta.fields ::
      codec.decode(row.columns[meta.fields[k].columnName.value], meta.fields[k].field.typ);
    return Some(Entity(meta.clazz, props));
  }

  /**
   * `getById`: an unmapped class or a null id throws; any failure inside the
   * read loop is caught and gives null. The key field itself is not set.
   */
  method GetById<C>(classes: map<ClassName, ClassDesc>, clazz: ClassName, id: Value, codec: Codec<C>, store: Store<C>)
    returns (r: Result<Option<Entity>, EngineError>)
    ensures clazz !in classes ==> r == Failure(NotMapped(clazz))
    ensures clazz in classes && id.Null? ==> r == Failure(NullPointer)
    ensures clazz in classes && !id.Null? ==>
      r == Success(ReadBack(classes[clazz], codec, RowAt(store, classes[clazz].columnFamilyName, id)))
  {
    var found := GetAnnotatedClass(classes, clazz);
    if found.Failure? {
      return found.PropagateFailure();
    }
    var meta := found.value;
    if id.Null? {
      return Failure(NullPointer);
    }
    var instance := ReadFields(meta, codec, RowAt(store, meta.columnFamilyName, id));
    return Success(instance);
  }

  // ------------------------------------------------------------ getResultList

  /** One row of a slice query's answer. */
  datatype RowSlice<C> = RowSlice(key: Value, columns: map<string, C>)

  /**
   * One object of `getResultList`: each kept field set from its column, then
   * the key field set to the row key. A missing column is a null dereference.
   */
  function Rebuilt<C>(meta: ClassDesc, row: RowSlice<C>, conv: (C, FieldDesc) -> Value): Result<Entity, EngineError> {
    if !AllColumnsPresent(meta, row.columns) then Failure(NullPointer)
    else if meta.keyFieldName.None? then Failure(NullPropertyName)
    else
      var props := map k | k in meta.fields :: conv(row.columns[meta.fields[k].columnName.value], meta.fields[k]);
      Success(Entity(meta.clazz, props[meta.keyFieldName.value := row.key]))
  }

  /** The objects of all rows in order; the first failing row ends the list. */
  function RebuiltAll<C>(meta: ClassDesc, rows: seq<RowSlice<C>>, conv: (C, FieldDesc) -> Value)
    : Result<seq<Entity>, EngineError>
    decreases |rows|
  {
    if rows == [] then Success([])
    else
      var first :- Rebuilt(meta, rows[0], conv);
      var rest :- RebuiltAll(meta, rows[1..], conv);
      Success([first] + rest)
  }

  /** The inner loop of `getResultList` over the kept fields of one row. */
  method RebuildRow<C>(meta: ClassDesc, row: RowSlice<C>, conv: (C, FieldDesc) -> Value) returns (r: Result<Entity, EngineError>)
    ensures r == Rebuilt(meta, row, conv)
  {
    var props: map<string, Value> := map[];
    var todo := meta.fields.Keys;
    while todo != {}
      invariant todo <= meta.fields.Keys
      invariant forall k :: k in meta.fields && k !in todo ==>
        meta.fields[k].columnName.Some? && meta.fields[k].columnName.value in row.columns
      invariant props == map k | k in meta.fields && k !in todo ::
        conv(row.columns[meta.fields[k].columnName.value], meta.fields[k])
    {
      var k :| k in todo;
      var f := meta.fields[k];
      if f.columnName.None? || f.columnName.value !in row.columns {
        return Failure(NullPointer);
      }
      props := props[k := conv(row.columns[f.columnName.value], f)];
      todo := todo - {k};
    }
    assert AllColumnsPresent(meta, row.columns);
    assert props == map k | k in meta.fields :: conv(row.columns[meta.fields[k].columnName.value], meta.fields[k]);
    if meta.keyFieldName.None? {
      return Failure(NullPropertyName);
    }
    return Success(Entity(meta.clazz, props[meta.keyFieldName.value := row.key]));
  }

  /** `getResultList`: one object per row, appended in row order. */
  method GetResultList<C>(meta: ClassDesc, rows: seq<RowSlice<C>>, conv: (C, FieldDesc) -> Value)
    returns (r: Result<seq<Entity>, EngineError>)
    ensures r == RebuiltAll(meta, rows, conv)
  {
    var result: seq<Entity> := [];
    var i := 0;
    ResultAfterEmpty(RebuiltAll(meta, rows, conv));
    assert rows[0..] == rows;
    while i < |rows|
      invariant 0 <= i <= |rows|
      invariant RebuiltAll(meta, rows, conv) == ResultAfter(result, RebuiltAll(meta, rows[i..], conv))
    {
      var entity := RebuildRow(meta, rows[i], conv);
      RebuiltAllStep(meta, rows, i, conv);
      if entity.Failure? {
        return Failure(entity.error);
      }
      ResultAfterAppend(result, entity.value, RebuiltAll(meta, rows[i + 1..], conv));
      result := result + [entity.value];
      i := i + 1;
    }
    assert rows[i..] == [];
    assert result + [] == result;
    return Success(result);
  }

  /** A prefix already built, followed by the outcome for the rest of the rows. */
  function ResultAfter(prefix: seq<Entity>, rest: Result<seq<Entity>, EngineError>): Result<seq<Entity>, EngineError> {
    match rest
    case Success(s) => Success(prefix + s)
    case Failure(err) => Failure(err)
  }

  lemma ResultAfterEmpty(rest: Result<seq<Entity>, EngineError>)
    ensures ResultAfter([], rest) == rest
  {
    if rest.Success? {
      assert [] + rest.value == rest.value;
    }
  }

  lemma ResultAfterAppend(prefix: seq<Entity>, x: Entity, rest: Result<seq<Entity>, EngineError>)
    ensures ResultAfter(prefix, ResultAfter([x], rest)) == ResultAfter(prefix + [x], rest)
  {
    if rest.Success? {
      assert prefix + ([x] + rest.value) == (prefix + [x]) + rest.value;
    }
  }

  lemma RebuiltAllStep<C>(meta: ClassDesc, rows: seq<RowSlice<C>>, i: int, conv: (C, FieldDesc) -> Value)
    requires 0 <= i < |rows|
    ensures Rebuilt(meta, rows[i], conv).Failure? ==>
      RebuiltAll(meta, rows[i..], conv) == Failure(Rebuilt(meta, rows[i], conv).error)
    ensures Rebuilt(meta, rows[i], conv).Success? ==>
      RebuiltAll(meta, rows[i..], conv) == ResultAfter([Rebuilt(meta, rows[i], conv).value], RebuiltAll(meta, rows[i + 1..], conv))
  {
    assert rows[i..][0] == rows[i] && rows[i..][1..] == rows[i + 1..];
  }

  // ------------------------------------------------------------ query shapes

  /** The query is restricted to exactly the kept fields' literal column names, one per field. */
  predicate NamesOfFields(meta: ClassDesc, names: seq<Option<string>>) {
    && |names| == |meta.fields|
    && (forall i :: 0 <= i < |names| ==> exists k :: k in meta.fields && names[i] == meta.fields[k].columnName)
    && (forall k :: k in meta.fields ==> meta.fields[k].columnName in names)
  }

  /** `fillColumnNames`: an array with one literal column name per kept field, in map order. */
  method FillColumnNames(meta: ClassDesc) returns (names: seq<Option<string>>, ghost order: seq<string>)
    ensures NamesOfFields(meta, names)
    ensures |order| == |names| && (forall i, j :: 0 <= i < j < |order| ==> order[i] != order[j])
    ensures forall i :: 0 <= i < |order| ==> order[i] in meta.fields && names[i] == meta.fields[order[i]].columnName
  {
    var columnNames := new Option<string>[|meta.fields|](_ => None);
    var i := 0;
    var todo := meta.fields.Keys;
    order := [];
    while todo != {}
      invariant todo <= meta.fields.Keys
      invariant i + |todo| == |meta.fields| && |order| == i
      invariant forall j :: 0 <= j < i ==> order[j] in meta.fields && order[j] !in todo
      invariant forall j :: 0 <= j < i ==> columnNames[j] == meta.fields[order[j]].columnName
      invariant forall j, l :: 0 <= j < l < i ==> order[j] != order[l]
      invariant forall k :: k in meta.fields && k !in todo ==> k in order
    {
      var k :| k in todo;
      columnNames[i] := meta.fields[k].columnName;
      order := order + [k];
      i := i + 1;
      todo := todo - {k};
    }
    names := columnNames[..];
    forall k | k in meta.fields ensures meta.fields[k].columnName in names {
      var j :| 0 <= j < |order| && order[j] == k;
      assert names[j] == meta.fields[k].columnName;
    }
  }

  /** An index query: column family, columns fetched, and the equality expression. */
  datatype IndexQuery<C> = IndexQuery(columnFamily: string, columnNames: seq<Option<string>>,
                                      column: Option<string>, value: Option<C>)

  /**
   * How rows of an index query become property values: the trunk decodes
   * every column as its field's declared type; the earlier revision keeps the
   * raw values, which the query's value serialiser (inferred from the probe
   * value) has read.
   */
  function IndexConversion<C>(rev: Builder.Revision, codec: Codec<C>, probe: Value): (C, FieldDesc) -> Value {
    if rev == Builder.Trunk then (c: C, f: FieldDesc) => codec.decode(c, f.field.typ)
    else (c: C, f: FieldDesc) => codec.decode(c, codec.typeOf(probe))
  }

  /**
   * `getByPropertyValue`: an unmapped class, a property that is not kept (its
   * descriptor is null) and a property without a secondary index all fail
   * before any query. Otherwise the issued query fetches the kept fields'
   * columns where the property's column equals the encoded value, and every
   * answered row becomes one object. The index lookup itself is `answer`.
   */
  method GetByPropertyValue<C>(rev: Builder.Revision, classes: map<ClassName, ClassDesc>, clazz: ClassName, property: string,
                               value: Value, codec: Codec<C>, answer: IndexQuery<C> -> seq<RowSlice<C>>)
    returns (r: Result<seq<Entity>, EngineError>, issued: Option<IndexQuery<C>>)
    ensures clazz !in classes ==> r == Failure(NotMapped(clazz)) && issued.None?
    ensures clazz in classes && property !in classes[clazz].fields ==> r == Failure(NullPointer) && issued.None?
    ensures clazz in classes && property in classes[clazz].fields && !classes[clazz].fields[property].IsSecondaryIndex() ==>
      r == Failure(NoSecondaryIndex(property)) && issued.None?
    ensures clazz in classes && property in classes[clazz].fields && classes[clazz].fields[property].IsSecondaryIndex() ==>
      var meta := classes[clazz];
      && issued.Some?
      && issued.value.columnFamily == meta.columnFamilyName
      && NamesOfFields(meta, issued.value.columnNames)
      && issued.value.column == meta.fields[property].columnName
      && issued.value.value == codec.encode(value)
      && r == RebuiltAll(meta, answer(issued.value), IndexConversion(rev, codec, value))
  {
    issued := None;
    var found := GetAnnotatedClass(classes, clazz);
    if found.Failure? {
      return found.PropagateFailure(), issued;
    }
    var meta := found.value;
    if property !in meta.fields {
      return Failure(NullPointer), issued;
    }
    var field := meta.fields[property];
    if !field.IsSecondaryIndex() {
      return Failure(NoSecondaryIndex(property)), issued;
    }
    var names, _ := FillColumnNames(meta);
    var query := IndexQuery(meta.columnFamilyName, names, field.columnName, codec.encode(value));
    issued := Some(query);
    r := GetResultList(meta, answer(query), IndexConversion(rev, codec, value));
  }

  /** The rows a multiget answers: one per requested key, holding the requested columns present with their stored values. */
  function Multiget<C>(store: Store<C>, cf: string, names: seq<Option<string>>, keys: seq<Value>): (rows: seq<RowSlice<C>>)
    ensures |rows| == |keys|
    ensures forall i :: 0 <= i < |keys| ==> rows[i].key == keys[i]
    ensures forall i, n :: 0 <= i < |keys| && n in rows[i].columns <==>
      0 <= i < |keys| && n in RowAt(store, cf, keys[i]).columns && Some(n) in names
    ensures forall i, n :: 0 <= i < |keys| && n in rows[i].columns ==>
      n in RowAt(store, cf, keys[i]).columns && rows[i].columns[n] == RowAt(store, cf, keys[i]).columns[n]
  {
    seq(|keys|, i requires 0 <= i < |keys| =>
      var row := RowAt(store, cf, keys[i]);
      RowSlice(keys[i], map n | n in row.columns && Some(n) in names :: row.columns[n]))
  }

  /**
   * `getList(clazz, ids...)`: a multiget of the kept columns of the given keys,
   * each row decoded by field type. An unmapped class is a null dereference.
   */
  method GetList<C>(classes: map<ClassName, ClassDesc>, clazz: ClassName, keys: seq<Value>, codec: Codec<C>, store: Store<C>)
    returns (r: Result<seq<Entity>, EngineError>)
    ensures clazz !in classes ==> r == Failure(NullPointer)
    ensures clazz in classes ==>
      exists names :: NamesOfFields(classes[clazz], names) &&
        r == RebuiltAll(classes[clazz], Multiget(store, classes[clazz].columnFamilyName, names, keys),
                        IndexConversion(Builder.Trunk, codec, Null))
  {
    if clazz !in classes {
      return Failure(NullPointer);
    }
    var meta := classes[clazz];
    var names, _ := FillColumnNames(meta);
    r := GetResultList(meta, Multiget(store, meta.columnFamilyName, names, keys), IndexConversion(Builder.Trunk, codec, Null));
  }

  /** A range query: a super-slice or a slice query over one row, from a start column. */
  datatype RangeQuery<C> = RangeQuery(superSlice: bool, columnFamily: string, key: Value, start: Option<C>, count: int)

  /**
   * `getList(clazz, id, inverse, startColumnName, count)`: builds a super-slice
   * query iff the class has a super column, on the inverse column family iff
   * the class has one and it is asked for, starting at the serialised start
   * column, and returns null. An unmapped class
   * is a null dereference. Success carries the query built.
   */
  function GetRange<C>(classes: map<ClassName, ClassDesc>, clazz: ClassName, id: Value, inverse: bool,
                       start: Value, count: int, codec: Codec<C>): (r: Result<RangeQuery<C>, EngineError>)
    ensures r.Failure? <==> clazz !in classes
    ensures r.Failure? ==> r.error == NullPointer
    ensures r.Success? ==>
      && r.value.superSlice == classes[clazz].hasSuperColumn
      && r.value.columnFamily == SetColumnFamilyName(classes[clazz], inverse)
      && r.value.key == id && r.value.count == count
      && r.value.start == codec.encode(start)
  {
    if clazz !in classes then Failure(NullPointer)
    else
      var meta := classes[clazz];
      Success(RangeQuery(meta.hasSuperColumn, SetColumnFamilyName(meta, inverse), id, codec.encode(start), count))
  }

  /** The earlier revision's `getList`: a stub that returns null whatever it is given. */
  function EarlierGetList(classes: map<ClassName, ClassDesc>, clazz: ClassName, id: Value, inverse: bool,
                          start: int, count: int): (r: Option<seq<Entity>>)
    ensures r.None?
  {
    None
  }
}
