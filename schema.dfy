/**
 * The logical layout of the backing database: which object stores exist and
 * which indices each one carries, plus the records a store holds and what its
 * unique indices demand of them.
 */
module Schema {
  import opened Wrappers

  /** A key path: a single field name, or an array of field names (a compound key). */
  datatype KeyPath = Field(name: string) | Fields(names: seq<string>)

  /** An index over an object store: its key path and whether it enforces uniqueness. */
  datatype IndexSchema = IndexSchema(keyPath: KeyPath, unique: bool)

  /**
   * An object store. `keyPath == None` means records are keyed out of line
   * (the writer supplies the key); `autoIncrement` says whether the store
   * generates keys itself.
   */
  datatype StoreSchema = StoreSchema(keyPath: Option<KeyPath>, autoIncrement: bool,
                                     indices: map<string, IndexSchema>)

  /** The database layout: object stores by name. */
  type Schema = map<string, StoreSchema>

  /** One schema change performed inside a version-change transaction. */
  datatype SchemaOp =
    | AddStore(store: string)
    | AddIndex(onStore: string, index: string, path: KeyPath, isUnique: bool)

  /** A store created with no options: out-of-line keys, no key generator, no indices. */
  const PlainStore := StoreSchema(None, false, map[])

  /**
   * The effect of one schema change. Creating a store or an index under a name
   * that is already taken is refused by the host (a ConstraintError), as is
   * adding an index to a store that does not exist; refusal is `None`.
   */
  function ApplyOp(s: Schema, op: SchemaOp): (r: Option<Schema>)
    ensures r.Some? ==> s.Keys <= r.value.Keys
    ensures r.Some? <==> match op
                         case AddStore(n) => n !in s
                         case AddIndex(st, ix, _, _) => st in s && ix !in s[st].indices
    // A new store is a plain store under the new name; every other store is kept as it was.
    ensures r.Some? && op.AddStore? ==>
              r.value.Keys == s.Keys + {op.store} && r.value[op.store] == PlainStore &&
              forall n :: n in s ==> r.value[n] == s[n]
    // A new index goes on its store under its name with the given key path and
    // flag; the store's keys, its other indices and every other store are kept.
    ensures r.Some? && op.AddIndex? ==>
              r.value.Keys == s.Keys &&
              r.value[op.onStore].keyPath == s[op.onStore].keyPath &&
              r.value[op.onStore].autoIncrement == s[op.onStore].autoIncrement &&
              r.value[op.onStore].indices.Keys == s[op.onStore].indices.Keys + {op.index} &&
              r.value[op.onStore].indices[op.index] == IndexSchema(op.path, op.isUnique) &&
              (forall i :: i in s[op.onStore].indices ==> r.value[op.onStore].indices[i] == s[op.onStore].indices[i]) &&
              (forall n :: n in s && n != op.onStore ==> r.value[n] == s[n])
  {
    match op
    case AddStore(n) =>
      if n in s then None else Some(s[n := PlainStore])
    case AddIndex(st, ix, p, u) =>
      if st !in s || ix in s[st].indices then None
      else Some(s[st := s[st].(indices := s[st].indices[ix := IndexSchema(p, u)])])
  }

  /** The effect of a sequence of schema changes, stopping at the first refused one. */
  function ApplyOps(s: Schema, ops: seq<SchemaOp>): (r: Option<Schema>)
    ensures r.Some? ==> s.Keys <= r.value.Keys
    decreases |ops|
  {
    if ops == [] then Some(s)
    else match ApplyOp(s, ops[0])
         case None => None
         case Some(s1) => ApplyOps(s1, ops[1..])
  }

  // ---------------------------------------------------------------------------
  // Records and the uniqueness that unique indices enforce

  /** A dictionary record: character code, input-method id and an opaque value. */
  datatype Record = Record(code: int, im: int, value: string)

  /** A value under which an index files a record: a scalar key or an array key. */
  datatype IndexKey = Scalar(v: int) | Array(vs: seq<int>)

  /** The numeric fields of a record; `value` is not a valid key. */
  function FieldOf(r: Record, f: string): Option<int>
  {
    if f == "code" then Some(r.code)
    else if f == "im" then Some(r.im)
    else None
  }

  /** The fields of `r` named by `fs`, in order, if every one of them is a valid key. */
  function FieldsOf(r: Record, fs: seq<string>): (k: Option<seq<int>>)
    ensures k.Some? ==> |k.value| == |fs|
    ensures k.Some? ==> forall i :: 0 <= i < |fs| ==> FieldOf(r, fs[i]) == Some(k.value[i])
  {
    if fs == [] then Some([])
    else
      var head, tail := FieldOf(r, fs[0]), FieldsOf(r, fs[1..]);
      if head.Some? && tail.Some? then Some([head.value] + tail.value) else None
  }

  /** The key under which an index with key path `p` files `r`; `None` means `r` is not indexed. */
  function KeyOf(r: Record, p: KeyPath): Option<IndexKey>
  {
    match p
    case Field(f) => (match FieldOf(r, f) case Some(v) => Some(Scalar(v)) case None => None)
    case Fields(fs) => (match FieldsOf(r, fs) case Some(vs) => Some(Array(vs)) case None => None)
  }

  /** Records of a store, by their (out-of-line) primary key. */
  type Records = map<int, Record>

  /** A unique index admits `recs` when no two distinct records are filed under the same key. */
  ghost predicate IndexAdmits(recs: Records, ix: IndexSchema)
  {
    ix.unique ==>
      forall k1, k2 :: k1 in recs && k2 in recs && k1 != k2 && KeyOf(recs[k1], ix.keyPath).Some? ==>
        KeyOf(recs[k1], ix.keyPath) != KeyOf(recs[k2], ix.keyPath)
  }

  /** A store admits `recs` when every one of its indices does. */
  ghost predicate StoreAdmits(st: StoreSchema, recs: Records)
  {
    forall name :: name in st.indices ==> IndexAdmits(recs, st.indices[name])
  }

  /** No two distinct records carry the same (code, im) pair. */
  ghost predicate NoDuplicatePairs(recs: Records)
  {
    forall k1, k2 :: k1 in recs && k2 in recs && k1 != k2 ==>
      (recs[k1].code, recs[k1].im) != (recs[k2].code, recs[k2].im)
  }
}
