/**
 * The store access layer: the process-wide cached connection (`_db`), opening
 * it (running the migration engine when the host asks for an upgrade),
 * wrapping work in a transaction, reducing how that transaction ends to a
 * success or a named failure, and closing the connection.
 */
module Store {
  import opened Wrappers
  import opened Schema
  import opened Migration

  const DbName: string := "dorudon"

  datatype Mode = ReadOnly | ReadWrite

  /** An open connection to the named database at a version. */
  datatype Connection = Connection(name: string, version: int)

  /**
   * What the host's open request reports: success, an error with its name, or
   * that the stored version (`oldVersion`) is not the requested one
   * (`newVersion`) and an upgrade must run first.
   */
  datatype OpenEvent =
    | OpenSuccess
    | OpenError(errorName: string)
    | UpgradeNeeded(oldVersion: nat, newVersion: nat)

  /** The host only ever answers the request it was given: an open of version 1. */
  predicate AnswersRequest(event: OpenEvent)
  {
    event.UpgradeNeeded? ==> event.newVersion == DbVersion
  }

  /** How a transaction ends: it completes, or it aborts with the host's error, if it has one. */
  datatype TxnEnd = Complete | Aborted(hostError: Option<string>)

  /** A transaction that was asked for: the stores it covers and its mode. */
  datatype TxnRequest = TxnRequest(storeNames: seq<string>, mode: Mode)

  /** What the caller hears: its success callback, its failure callback with a name, or nothing. */
  datatype Report = Silent | Succeeded | Failed(name: string)

  /** A success, as heard by a caller that may not have given a success callback. */
  function SuccessReport(hasSuccessCb: bool): (r: Report)
    ensures r != Silent <==> hasSuccessCb
    ensures !r.Failed?
  {
    if hasSuccessCb then Succeeded else Silent
  }

  /** A failure named `name`, as heard by a caller that may not have given a failure callback. */
  function FailureReport(hasFailureCb: bool, name: string): (r: Report)
    ensures r != Silent <==> hasFailureCb
    ensures r.Failed? ==> r.name == name
    ensures !r.Succeeded?
  {
    if hasFailureCb then Failed(name) else Silent
  }

  /**
   * The name an abort is reported under: the host's error name when the
   * abort carries an error, `UnknownError` when it does not (an explicit
   * `abort()` call leaves the error empty).
   */
  function AbortName(hostError: Option<string>): (name: string)
    ensures hostError.Some? ==> name == hostError.value
    ensures hostError.None? ==> name == "UnknownError"
  {
    match hostError
    case Some(e) => e
    case None => "UnknownError"
  }

  /**
   * A caller cannot tell an abort without an error from one whose host error
   * is itself named `UnknownError`; every other name identifies the host error.
   */
  lemma AbortNameFallback(hostError: Option<string>)
    ensures AbortName(hostError) == "UnknownError" <==> (hostError.None? || hostError.value == "UnknownError")
  {
  }

  /**
   * What a transaction's caller hears, given whether a connection was cached,
   * the open attempted otherwise, and how the transaction ended.
   */
  function TxnReport(cached: bool, o: Opened, end: TxnEnd, hasSuccessCb: bool, hasFailureCb: bool): (r: Report)
    requires o.conn.Some? <==> o.error.None?
    ensures r.Succeeded? <==> hasSuccessCb && (cached || o.conn.Some?) && end.Complete?
    ensures r.Failed? <==> hasFailureCb && ((!cached && o.conn.None?) || end.Aborted?)
    ensures r.Failed? && !cached && o.conn.None? ==> r.name == o.error.value
    ensures r.Failed? && (cached || o.conn.Some?) ==> r.name == AbortName(end.hostError)
  {
    if !cached && o.error.Some? then FailureReport(hasFailureCb, o.error.value)
    else match end
         case Complete => SuccessReport(hasSuccessCb)
         case Aborted(e) => FailureReport(hasFailureCb, AbortName(e))
  }

  /** The outcome of one open request: the connection, the stored layout afterwards, or the error. */
  datatype Opened = Opened(conn: Option<Connection>, stored: Schema, error: Option<string>)

  /** Every open event the host can send for the request of version 1 has its steps registered. */
  lemma AnsweredRequestsAreRegistered(event: OpenEvent)
    requires AnswersRequest(event) && event.UpgradeNeeded?
    ensures Registered(StepTableOf(UpgradeFuncs), event.oldVersion, event.newVersion)
  {
  }

  /**
   * One open request against a database whose committed layout is `stored`.
   * An upgrade runs the migration in a version-change transaction; if that
   * aborts, the host fails the request with `AbortError` and nothing of the
   * migration is committed.
   */
  function HostOpen(stored: Schema, event: OpenEvent): (o: Opened)
    requires AnswersRequest(event)
    ensures o.conn.Some? <==> o.error.None?
    ensures o.error.Some? ==> o.stored == stored
    ensures o.conn.Some? ==> o.conn.value.name == DbName && o.conn.value.version == DbVersion
    ensures event.OpenError? ==> o.error == Some(event.errorName)
  {
    match event
    case OpenSuccess => Opened(Some(Connection(DbName, DbVersion)), stored, None)
    case OpenError(e) => Opened(None, stored, Some(e))
    case UpgradeNeeded(o, n) =>
      AnsweredRequestsAreRegistered(event);
      var m := Migrate(StepTableOf(UpgradeFuncs), stored, o, n);
      if m.aborted then Opened(None, stored, Some("AbortError"))
      else Opened(Some(Connection(DbName, n)), m.schema, None)
  }

  /** Opening a fresh database (stored version 0) creates the `dict` layout and connects. */
  lemma OpenFreshDatabase()
    ensures HostOpen(map[], UpgradeNeeded(0, DbVersion))
            == Opened(Some(Connection(DbName, DbVersion)), map[DictStoreName := DictStore], None)
  {
    FreshDatabaseMigration();
  }

  /** A database stored at a newer version than 1 cannot be opened and is left as it is. */
  lemma OpenNewerDatabaseFails(stored: Schema, oldVersion: nat)
    requires oldVersion > DbVersion
    ensures HostOpen(stored, UpgradeNeeded(oldVersion, DbVersion)) == Opened(None, stored, Some("AbortError"))
  {
    MigrateDowngrade(StepTableOf(UpgradeFuncs), stored, oldVersion, DbVersion);
  }

  /**
   * The module's state: the cached connection (`None` until opened and after
   * closing), the backing database's committed layout, and the transactions
   * asked of the host so far.
   */
  class DbModule {
    var db: Option<Connection>
    var stored: Schema
    var issued: seq<TxnRequest>

    constructor (s: Schema)
      ensures db == None && stored == s && issued == []
    {
      db := None;
      stored := s;
      issued := [];
    }

    /**
     * Open the database. Success caches the connection and calls the success
     * callback, if any; failure calls the failure callback, if any, with the
     * host's error name and leaves the cache as it was.
     */
    method OpenDb(event: OpenEvent, hasSuccessCb: bool, hasFailureCb: bool) returns (report: Report)
      requires AnswersRequest(event)
      modifies this
      ensures var o := HostOpen(old(stored), event);
              stored == o.stored &&
              db == (if o.conn.Some? then o.conn else old(db)) &&
              report == (if o.error.None? then SuccessReport(hasSuccessCb) else FailureReport(hasFailureCb, o.error.value))
      ensures issued == old(issued)
    {
      match event
      case OpenSuccess =>
        db := Some(Connection(DbName, DbVersion));
        report := SuccessReport(hasSuccessCb);
      case OpenError(e) =>
        report := FailureReport(hasFailureCb, e);
      case UpgradeNeeded(o, n) =>
        AnsweredRequestsAreRegistered(event);
        var txn := new VersionChangeTxn(stored);
        txn.UpgradeSchema(UpgradeFuncs, o, n);
        if txn.aborted {
          report := FailureReport(hasFailureCb, "AbortError");
        } else {
          stored := txn.schema;
          db := Some(Connection(DbName, n));
          report := SuccessReport(hasSuccessCb);
        }
    }

    /**
     * Make sure a connection is cached: with one cached, succeed at once
     * without asking the host; otherwise open.
     */
    method EnsureDb(event: OpenEvent, hasSuccessCb: bool, hasFailureCb: bool) returns (report: Report)
      requires AnswersRequest(event)
      modifies this
      ensures old(db).Some? ==> db == old(db) && stored == old(stored) && report == SuccessReport(hasSuccessCb)
      ensures old(db).None? ==>
              var o := HostOpen(old(stored), event);
              stored == o.stored && db == o.conn &&
              report == (if o.error.None? then SuccessReport(hasSuccessCb) else FailureReport(hasFailureCb, o.error.value))
      ensures issued == old(issued)
    {
      if db.Some? {
        report := SuccessReport(hasSuccessCb);
        return;
      }
      report := OpenDb(event, hasSuccessCb, hasFailureCb);
    }

    /**
     * Run a transaction over `storeNames` in `mode` once a connection is
     * ensured. A failed open is reported to the failure callback; otherwise
     * the transaction is asked for and its end is reported: completion to
     * the success callback, an abort to the failure callback under
     * `AbortName` of the host's error.
     */
    method NewTxn(storeNames: seq<string>, mode: Mode, event: OpenEvent, end: TxnEnd,
                  hasSuccessCb: bool, hasFailureCb: bool) returns (report: Report)
      requires AnswersRequest(event)
      modifies this
      ensures var o := HostOpen(old(stored), event);
              var connected := old(db).Some? || o.error.None?;
              stored == (if old(db).Some? then old(stored) else o.stored) &&
              db == (if old(db).Some? then old(db) else o.conn) &&
              issued == old(issued) + (if connected then [TxnRequest(storeNames, mode)] else []) &&
              report == TxnReport(old(db).Some?, o, end, hasSuccessCb, hasFailureCb)
    {
      var ensured := EnsureDb(event, true, hasFailureCb);
      if ensured != Succeeded {
        report := ensured;
        return;
      }
      issued := issued + [TxnRequest(storeNames, mode)];
      match end
      case Complete =>
        report := SuccessReport(hasSuccessCb);
      case Aborted(e) =>
        report := FailureReport(hasFailureCb, AbortName(e));
    }

    /** Initialise: a read-only transaction over `dict` with no work in it. */
    method InitDb(event: OpenEvent, end: TxnEnd, hasSuccessCb: bool, hasFailureCb: bool) returns (report: Report)
      requires AnswersRequest(event)
      modifies this
      ensures var o := HostOpen(old(stored), event);
              var connected := old(db).Some? || o.error.None?;
              stored == (if old(db).Some? then old(stored) else o.stored) &&
              db == (if old(db).Some? then old(db) else o.conn) &&
              issued == old(issued) + (if connected then [TxnRequest([DictStoreName], ReadOnly)] else []) &&
              report == TxnReport(old(db).Some?, o, end, hasSuccessCb, hasFailureCb)
    {
      report := NewTxn([DictStoreName], ReadOnly, event, end, hasSuccessCb, hasFailureCb);
    }

    /** Close the cached connection, if there is one; the cache is empty afterwards. */
    method CloseDb()
      modifies this
      ensures db == None && stored == old(stored) && issued == old(issued)
    {
      if db.Some? {
        db := None;
      }
    }

    /** The module's public entry point, `init`. */
    method Init(event: OpenEvent, end: TxnEnd, hasSuccessCb: bool, hasFailureCb: bool) returns (report: Report)
      requires AnswersRequest(event)
      modifies this
      ensures var o := HostOpen(old(stored), event);
              var connected := old(db).Some? || o.error.None?;
              stored == (if old(db).Some? then old(stored) else o.stored) &&
              db == (if old(db).Some? then old(db) else o.conn) &&
              issued == old(issued) + (if connected then [TxnRequest([DictStoreName], ReadOnly)] else []) &&
              report == TxnReport(old(db).Some?, o, end, hasSuccessCb, hasFailureCb)
    {
      report := InitDb(event, end, hasSuccessCb, hasFailureCb);
    }
  }
}
