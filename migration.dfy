/**
 * The schema migration engine: a registry of per-version upgrade steps and the
 * walk that runs them, one version at a time, inside the version-change
 * transaction the host opens when the stored version is older than the
 * requested one.
 */
module Migration {
  import opened Wrappers
  import opened Schema

  /** The version of the layout this program needs. */
  const DbVersion: int := 1

  const DictStoreName: string := "dict"

  /** The registered upgrade steps, by name. Step N upgrades a version-N database to N + 1. */
  datatype StepId = Schema0

  /** The step registry: the step to run when upgrading from a given version. */
  const UpgradeFuncs: map<int, StepId> := map[0 := Schema0]

  /** The schema changes a step makes, in the order it makes them. */
  function StepOps(id: StepId): seq<SchemaOp>
  {
    match id
    case Schema0 => [
      AddStore(DictStoreName),
      AddIndex(DictStoreName, "code", Field("code"), false),
      AddIndex(DictStoreName, "im-code", Fields(["im", "code"]), true),
      AddIndex(DictStoreName, "code-im", Fields(["code", "im"]), true)
    ]
  }

  /** The `dict` store as version 1 lays it out. */
  const DictStore: StoreSchema := StoreSchema(None, false, map[
    "code" := IndexSchema(Field("code"), false),
    "im-code" := IndexSchema(Fields(["im", "code"]), true),
    "code-im" := IndexSchema(Fields(["code", "im"]), true)
  ])

  /**
   * A step table: for each registered version, the schema changes its step
   * makes before handing over to the rest of the walk. The engine is stated
   * over any such table; `UpgradeFuncs` is one.
   */
  type StepTable = map<int, seq<SchemaOp>>

  /** The schema changes each registered step makes. */
  function StepTableOf(registry: map<int, StepId>): (t: StepTable)
    ensures t.Keys == registry.Keys
    ensures forall v :: v in t ==> t[v] == StepOps(registry[v])
  {
    map v | v in registry :: StepOps(registry[v])
  }

  /** A step is registered for every version the walk from `oldV` to `newV` passes through. */
  predicate Registered<T>(registry: map<int, T>, oldV: int, newV: int)
  {
    forall v :: oldV <= v < newV ==> v in registry
  }

  /** The consecutive versions lo, lo + 1, ..., hi - 1. */
  function Range(lo: int, hi: int): (r: seq<int>)
    ensures |r| == if lo < hi then hi - lo else 0
    ensures forall i :: 0 <= i < |r| ==> r[i] == lo + i
    decreases hi - lo
  {
    if lo < hi then [lo] + Range(lo + 1, hi) else []
  }

  /**
   * What a migration leaves behind: the schema it built, whether the
   * transaction was aborted, and the versions whose steps ran, in order.
   */
  datatype Migration = Migration(schema: Schema, aborted: bool, ran: seq<int>)

  function Measure(oldV: int, newV: int): nat
  {
    if oldV < newV then newV - oldV else 0
  }

  /**
   * The walk from `oldV` to `newV` over schema `s`. Going up, the step for
   * `oldV` runs and hands over to the walk from `oldV + 1`; a step whose
   * schema change the host refuses throws, which aborts the transaction and
   * ends the walk. At the target version nothing happens. Going down aborts.
   */
  function Migrate(steps: StepTable, s: Schema, oldV: int, newV: int): (m: Migration)
    requires Registered(steps, oldV, newV)
    ensures |m.ran| <= Measure(oldV, newV)
    ensures !m.aborted ==> oldV <= newV && |m.ran| == newV - oldV
    ensures oldV > newV ==> m.aborted && m.ran == []
    decreases Measure(oldV, newV)
  {
    if oldV < newV then
      match ApplyOps(s, steps[oldV])
      case None => Migration(s, true, [oldV])
      case Some(s1) =>
        var rest := Migrate(steps, s1, oldV + 1, newV);
        Migration(rest.schema, rest.aborted, [oldV] + rest.ran)
    else if oldV == newV then Migration(s, false, [])
    else Migration(s, true, [])
  }

  /**
   * The steps that run are those for oldV, oldV + 1, ... in increasing order,
   * each once and none skipped; when the walk completes they are exactly the
   * steps for oldV .. newV - 1, and when it aborts on the way up the last step
   * run is the one that failed.
   */
  lemma {:induction false} MigrateRunsStepsInOrder(steps: StepTable, s: Schema, oldV: int, newV: int)
    requires Registered(steps, oldV, newV)
    requires oldV <= newV
    ensures Migrate(steps, s, oldV, newV).ran == Range(oldV, oldV + |Migrate(steps, s, oldV, newV).ran|)
    ensures !Migrate(steps, s, oldV, newV).aborted ==> Migrate(steps, s, oldV, newV).ran == Range(oldV, newV)
    ensures Migrate(steps, s, oldV, newV).aborted ==> Migrate(steps, s, oldV, newV).ran != []
    decreases newV - oldV
  {
    var m := Migrate(steps, s, oldV, newV);
    if oldV < newV {
      match ApplyOps(s, steps[oldV])
      case None =>
        assert m.ran == [oldV];
      case Some(s1) =>
        MigrateRunsStepsInOrder(steps, s1, oldV + 1, newV);
        var rest := Migrate(steps, s1, oldV + 1, newV);
        assert m.ran == [oldV] + rest.ran;
        assert Range(oldV, oldV + |m.ran|) == [oldV] + Range(oldV + 1, oldV + 1 + |rest.ran|);
    } else {
      assert m.ran == [];
    }
  }

  /** The schema changes of the steps for lo, lo + 1, ..., hi - 1, one after another. */
  function Ops(steps: StepTable, lo: int, hi: int): seq<SchemaOp>
    requires Registered(steps, lo, hi)
    decreases Measure(lo, hi)
  {
    if lo < hi then steps[lo] + Ops(steps, lo + 1, hi) else []
  }

  /** Applying two runs of changes back to back is applying the first, then the second. */
  lemma {:induction false} ApplyOpsAppend(s: Schema, a: seq<SchemaOp>, b: seq<SchemaOp>)
    ensures ApplyOps(s, a + b) == match ApplyOps(s, a)
                                  case None => None
                                  case Some(s1) => ApplyOps(s1, b)
    decreases |a|
  {
    if a == [] {
      assert a + b == b;
    } else {
      assert (a + b)[0] == a[0];
      assert (a + b)[1..] == a[1..] + b;
      match ApplyOp(s, a[0])
      case None =>
      case Some(s1) => ApplyOpsAppend(s1, a[1..], b);
    }
  }

  /**
   * An upward walk does to the schema exactly what the registered steps'
   * changes, made one after another in version order, do: it completes
   * exactly when none of them is refused, and then leaves the schema they
   * build.
   */
  lemma {:induction false} MigrateAppliesStepsInOrder(steps: StepTable, s: Schema, oldV: int, newV: int)
    requires Registered(steps, oldV, newV)
    requires oldV <= newV
    ensures !Migrate(steps, s, oldV, newV).aborted <==> ApplyOps(s, Ops(steps, oldV, newV)).Some?
    ensures !Migrate(steps, s, oldV, newV).aborted ==>
              Migrate(steps, s, oldV, newV).schema == ApplyOps(s, Ops(steps, oldV, newV)).value
    decreases newV - oldV
  {
    if oldV < newV {
      ApplyOpsAppend(s, steps[oldV], Ops(steps, oldV + 1, newV));
      match ApplyOps(s, steps[oldV])
      case None =>
      case Some(s1) =>
        MigrateAppliesStepsInOrder(steps, s1, oldV + 1, newV);
    }
  }

  /** A walk that completes leaves every stored object store in place. */
  lemma {:induction false} MigrateKeepsStores(steps: StepTable, s: Schema, oldV: int, newV: int)
    requires Registered(steps, oldV, newV)
    ensures !Migrate(steps, s, oldV, newV).aborted ==> s.Keys <= Migrate(steps, s, oldV, newV).schema.Keys
    decreases Measure(oldV, newV)
  {
    if oldV < newV {
      match ApplyOps(s, steps[oldV])
      case None =>
      case Some(s1) =>
        MigrateKeepsStores(steps, s1, oldV + 1, newV);
    }
  }

  /** At the target version no step runs, the schema is untouched and nothing aborts. */
  lemma MigrateSameVersion(steps: StepTable, s: Schema, v: int)
    ensures Migrate(steps, s, v, v) == Migration(s, false, [])
  {
  }

  /** A downgrade runs no step, leaves the schema untouched and aborts. */
  lemma MigrateDowngrade(steps: StepTable, s: Schema, oldV: int, newV: int)
    requires oldV > newV
    ensures Migrate(steps, s, oldV, newV) == Migration(s, true, [])
  {
  }

  /** Step 0 on an empty database creates exactly one store, `dict`, with exactly its three indices. */
  lemma Schema0OnEmpty()
    ensures ApplyOps(map[], StepOps(Schema0)) == Some(map[DictStoreName := DictStore])
    ensures DictStore.keyPath == None && !DictStore.autoIncrement && |DictStore.indices| == 3
  {
    var ops := StepOps(Schema0);
    var s1 := map[DictStoreName := PlainStore];
    var s2 := s1[DictStoreName := StoreSchema(None, false, map["code" := IndexSchema(Field("code"), false)])];
    var s3 := s2[DictStoreName := s2[DictStoreName].(indices := s2[DictStoreName].indices["im-code" := IndexSchema(Fields(["im", "code"]), true)])];
    var s4 := s3[DictStoreName := s3[DictStoreName].(indices := s3[DictStoreName].indices["code-im" := IndexSchema(Fields(["code", "im"]), true)])];
    assert ApplyOp(map[], ops[0]) == Some(s1);
    assert ApplyOp(s1, ops[1]) == Some(s2);
    assert ApplyOp(s2, ops[2]) == Some(s3);
    assert ApplyOp(s3, ops[3]) == Some(s4);
    assert ApplyOps(s4, ops[4..]) == Some(s4);
    assert ApplyOps(s3, ops[3..]) == Some(s4);
    assert ApplyOps(s2, ops[2..]) == Some(s4);
    assert ApplyOps(s1, ops[1..]) == Some(s4);
    assert s4 == map[DictStoreName := DictStore];
  }

  /** Step 0 cannot be replayed: with `dict` already present the host refuses it. */
  lemma Schema0NotReplayable(s: Schema)
    requires DictStoreName in s
    ensures ApplyOps(s, StepOps(Schema0)) == None
  {
  }

  /** Opening a fresh database at version 1 runs step 0 once and yields the `dict` layout. */
  lemma FreshDatabaseMigration()
    ensures Migrate(StepTableOf(UpgradeFuncs), map[], 0, DbVersion) == Migration(map[DictStoreName := DictStore], false, [0])
  {
    Schema0OnEmpty();
  }

  /** The key under which the compound index on (f1, f2) files a record with both fields. */
  lemma PairKey(r: Record, f1: string, f2: string, v1: int, v2: int)
    requires FieldOf(r, f1) == Some(v1) && FieldOf(r, f2) == Some(v2)
    ensures KeyOf(r, Fields([f1, f2])) == Some(Array([v1, v2]))
  {
    assert [f1, f2][1..] == [f2];
    assert [f2][1..] == [];
    assert FieldsOf(r, []) == Some([]);
    assert [v2] + [] == [v2];
    assert FieldsOf(r, [f2]) == Some([v2]);
    assert [v1] + [v2] == [v1, v2];
    assert FieldsOf(r, [f1, f2]) == Some([v1, v2]);
  }

  /**
   * Through its unique compound indices `im-code` and `code-im`, the `dict`
   * store admits a record set exactly when no two records share a (code, im)
   * pair.
   */
  lemma DictAdmitsExactlyDistinctPairs(recs: Records)
    ensures StoreAdmits(DictStore, recs) <==> NoDuplicatePairs(recs)
  {
    forall k | k in recs
      ensures KeyOf(recs[k], Fields(["im", "code"])) == Some(Array([recs[k].im, recs[k].code]))
      ensures KeyOf(recs[k], Fields(["code", "im"])) == Some(Array([recs[k].code, recs[k].im]))
    {
      PairKey(recs[k], "im", "code", recs[k].im, recs[k].code);
      PairKey(recs[k], "code", "im", recs[k].code, recs[k].im);
    }
    if StoreAdmits(DictStore, recs) {
      assert IndexAdmits(recs, DictStore.indices["code-im"]);
    }
  }

  /**
   * The version-change transaction an upgrade runs in: the schema it is
   * building, whether it has been aborted, and (for the proof) the versions
   * whose steps have run.
   */
  class VersionChangeTxn {
    var schema: Schema
    var aborted: bool
    ghost var ran: seq<int>

    constructor (s: Schema)
      ensures schema == s && !aborted && ran == []
    {
      schema := s;
      aborted := false;
      ran := [];
    }

    /** This transaction's state agrees with migration `m` begun after `ran0`. */
    ghost predicate Reflects(m: Migration, ran0: seq<int>)
      reads this
    {
      aborted == m.aborted && ran == ran0 + m.ran && (!m.aborted ==> schema == m.schema)
    }

    /**
     * The host's createObjectStore. A name already taken throws a
     * ConstraintError out of the upgrade handler, which aborts the transaction.
     */
    method CreateObjectStore(name: string) returns (ok: bool)
      modifies this
      ensures ok == ApplyOp(old(schema), AddStore(name)).Some?
      ensures schema == if ok then ApplyOp(old(schema), AddStore(name)).value else old(schema)
      ensures aborted == (old(aborted) || !ok) && ran == old(ran)
    {
      if name in schema {
        ok := false;
        aborted := true;
      } else {
        ok := true;
        schema := schema[name := PlainStore];
      }
    }

    /**
     * The host's createIndex on store `store`. An index name already taken on
     * that store throws a ConstraintError, which aborts the transaction.
     */
    method CreateIndex(store: string, name: string, path: KeyPath, unique: bool) returns (ok: bool)
      modifies this
      ensures ok == ApplyOp(old(schema), AddIndex(store, name, path, unique)).Some?
      ensures schema == if ok then ApplyOp(old(schema), AddIndex(store, name, path, unique)).value else old(schema)
      ensures aborted == (old(aborted) || !ok) && ran == old(ran)
    {
      if store !in schema || name in schema[store].indices {
        ok := false;
        aborted := true;
      } else {
        ok := true;
        schema := schema[store := schema[store].(indices := schema[store].indices[name := IndexSchema(path, unique)])];
      }
    }

    /** The host's abort: the transaction will not commit. */
    method Abort()
      modifies this
      ensures aborted && schema == old(schema) && ran == old(ran)
    {
      aborted := true;
    }

    /**
     * The walk from `oldV` to `newV`: going up, run the registered step for
     * `oldV`, handing it the walk from `oldV + 1` as its continuation; at the
     * target, return; going down, abort.
     */
    method UpgradeSchema(registry: map<int, StepId>, oldV: int, newV: int)
      requires Registered(registry, oldV, newV) && !aborted
      modifies this
      ensures Reflects(Migrate(StepTableOf(registry), old(schema), oldV, newV), old(ran))
      decreases Measure(oldV, newV), 1
    {
      if oldV < newV {
        ran := ran + [oldV];
        match registry[oldV]
        case Schema0 => UpgradeSchema0(registry, oldV + 1, newV);
        return;
      }
      if oldV == newV {
        return;
      }
      Abort();
    }

    /**
     * Step 0: create `dict` (out-of-line keys) with a plain index on `code` and
     * unique compound indices on (im, code) and (code, im), then call the
     * continuation, the walk from `nextOld` to `nextNew`, exactly once. A
     * refused change throws, so neither the rest of the step nor the
     * continuation runs.
     */
    method UpgradeSchema0(registry: map<int, StepId>, nextOld: int, nextNew: int)
      requires Registered(registry, nextOld, nextNew) && !aborted
      modifies this
      ensures match ApplyOps(old(schema), StepOps(Schema0))
              case None => aborted && ran == old(ran)
              case Some(s1) => Reflects(Migrate(StepTableOf(registry), s1, nextOld, nextNew), old(ran))
      decreases Measure(nextOld, nextNew), 2
    {
      var ok := CreateObjectStore(DictStoreName);
      if !ok { return; }
      ok := CreateIndex(DictStoreName, "code", Field("code"), false);
      if !ok { return; }
      ok := CreateIndex(DictStoreName, "im-code", Fields(["im", "code"]), true);
      if !ok { return; }
      ok := CreateIndex(DictStoreName, "code-im", Fields(["code", "im"]), true);
      if !ok { return; }
      UpgradeSchema(registry, nextOld, nextNew);
    }
  }
}
