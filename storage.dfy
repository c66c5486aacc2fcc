/**
 * The data the runtime engine reads and writes: entity objects as property
 * maps, the serialiser as abstract functions, and the column store.
 */
module Storage {
  import opened Results
  import opened Annotations

  /** A property value: Java `null`, a scalar (by its text), or a reference to another entity. */
  datatype Value = Null | Atom(text: string) | Ref(target: Entity)

  /** An entity object: its class and its bean properties. */
  datatype Entity = Entity(clazz: ClassName, props: map<string, Value>)

  /**
   * A serialiser: `encode` may give no bytes (Hector's serialisers map `null`
   * to `null`), `decode` reads a column value back as the named declared type,
   * `typeOf` is the type a value's own serialiser is inferred from, and
   * `empty` is the empty column value (`new byte[0]`, or `""` in the
   * string-valued revision).
   */
  datatype Codec<!C> = Codec(encode: Value -> Option<C>, decode: (C, ClassName) -> Value,
                            typeOf: Value -> ClassName, empty: C)

  /** The column value written for a property: its encoding, or the empty value when that is null. */
  function Encoded<C>(codec: Codec<C>, v: Value): (r: C)
    ensures codec.encode(v).Some? ==> r == codec.encode(v).value
    ensures codec.encode(v).None? ==> r == codec.empty
  {
    codec.encode(v).GetOr(codec.empty)
  }

  /**
   * One row of a column family: its flat columns, and its super columns with
   * each sub-column addressed by the pair (super-column name, column name).
   */
  datatype Row<C> = Row(columns: map<string, C>, superCells: map<(string, string), C>)

  /** Column family name to row key to row. */
  type Store<C> = map<string, map<Value, Row<C>>>

  function EmptyRow<C>(): Row<C> {
    Row(map[], map[])
  }

  /** The row at `key` in `cf`; a missing row reads as an empty one. */
  function RowAt<C>(store: Store<C>, cf: string, key: Value): Row<C> {
    if cf in store && key in store[cf] then store[cf][key] else EmptyRow()
  }

  function PutRow<C>(store: Store<C>, cf: string, key: Value, row: Row<C>): (r: Store<C>)
    ensures RowAt(r, cf, key) == row
    ensures forall cf', key' :: (cf', key') != (cf, key) ==> RowAt(r, cf', key') == RowAt(store, cf', key')
  {
    var family := if cf in store then store[cf] else map[];
    store[cf := family[key := row]]
  }

  /** The names written by a set of (name, value) cells. */
  function NamesOf<K(==), V(==)>(cells: set<(K, V)>): set<K> {
    set c | c in cells :: c.0
  }

  /**
   * Writing `cells` over `before` gives `after`, in any order: every written
   * name holds one of the values written under it, and every other name keeps
   * its old value.
   */
  predicate Overwrites<K(==), V(==)>(before: map<K, V>, cells: set<(K, V)>, after: map<K, V>) {
    && after.Keys == before.Keys + NamesOf(cells)
    && (forall k :: k in before && k !in NamesOf(cells) ==> after[k] == before[k])
    && (forall k :: k in NamesOf(cells) ==> (k, after[k]) in cells)
  }

  /** The gateway applying a set of insertions one by one, in the set's unspecified order. */
  method WriteCells<K(==), V(==)>(before: map<K, V>, cells: set<(K, V)>) returns (after: map<K, V>)
    ensures Overwrites(before, cells, after)
  {
    after := before;
    var todo := cells;
    ghost var done: set<(K, V)> := {};
    while todo != {}
      invariant todo + done == cells
      invariant after.Keys == before.Keys + NamesOf(done)
      invariant forall k :: k in before && k !in NamesOf(done) ==> after[k] == before[k]
      invariant forall k :: k in NamesOf(done) ==> (k, after[k]) in done
    {
      var c :| c in todo;
      after := after[c.0 := c.1];
      todo := todo - {c};
      done := done + {c};
      assert NamesOf(done) == NamesOf(done - {c}) + {c.0};
    }
  }
}
