/**
 * `DataObjects::NestedTransaction`: a transaction primitive that runs on a
 * connection already inside a transaction and issues savepoint statements
 * instead of BEGIN/COMMIT/ROLLBACK.
 */
module DataObjects {
  import opened Wrappers
  import opened Collaborators
  import opened Statements
  import opened Identifiers

  /**
   * The class-level state of NestedTransaction: the HOST constant, the
   * `@@counter` class variable, and the SHA-256 hex digest it calls, which is
   * taken as an arbitrary function into 64-digit lower-case hex strings.
   */
  class ClassVars {
    const host: string
    const sha256: string -> HexDigest
    var counter: nat

    /**
     * Loading the class: HOST is the resolved host name, or "localhost" when
     * the lookup raises (`resolvedHost` is None); the counter starts at 0.
     */
    constructor (resolvedHost: Option<string>, sha256: string -> HexDigest)
      ensures resolvedHost.None? ==> host == "localhost"
      ensures resolvedHost.Some? ==> host == resolvedHost.value
      ensures this.sha256 == sha256 && counter == 0
    {
      host := if resolvedHost.Some? then resolvedHost.value else "localhost";
      this.sha256 := sha256;
      counter := 0;
    }
  }

  class NestedTransaction {
    const adapter: Adapter
    const connection: Connection
    const id: string

    /**
     * `initialize`: binds the adapter and the connection, pre-increments the
     * class counter, and takes as id the first 11 hex digits of the digest of
     * "<HOST>:<pid>:<time>:nested:<new counter>". The uri is not used.
     */
    constructor (vars: ClassVars, uri: string, connection: Connection, adapter: Adapter, pid: nat, time: string)
      modifies vars
      ensures vars.counter == old(vars.counter) + 1
      ensures this.adapter == adapter && this.connection == connection
      ensures id == SavepointId(vars.sha256(Seed(vars.host, pid, time, vars.counter)))
      ensures IsSavepointId(id)
    {
      this.adapter := adapter;
      this.connection := connection;
      vars.counter := vars.counter + 1;
      this.id := SavepointId(vars.sha256(Seed(vars.host, pid, time, vars.counter)));
    }

    /** `close`: executes nothing and changes nothing. */
    method Close()
      ensures unchanged(connection)
    {
    }

    /** `begin`: executes SAVEPOINT "<id>" on the shared connection. */
    method Begin()
      modifies connection
      ensures connection.log == old(connection.log) + [BeginStatement(id)]
    {
      connection.ExecuteNonQuery(BeginStatement(id));
    }

    /**
     * `commit`: executes nothing for an adapter whose class name matches
     * /oracle/i, and RELEASE SAVEPOINT "<id>" for any other.
     */
    method Commit()
      modifies connection
      ensures adapter.className.Some? && MatchesOracle(adapter.className.value) ==>
        connection.log == old(connection.log)
      ensures !(adapter.className.Some? && MatchesOracle(adapter.className.value)) ==>
        connection.log == old(connection.log) + [ReleaseStatement(id)]
    {
      var statement := CommitStatement(adapter.className, id);
      if statement.Some? {
        connection.ExecuteNonQuery(CommitStatement(adapter.className, id).value);
      }
    }

    /** `rollback`: executes ROLLBACK TO SAVEPOINT "<id>" on the shared connection. */
    method Rollback()
      modifies connection
      ensures connection.log == old(connection.log) + [RollbackStatement(id)]
    {
      connection.ExecuteNonQuery(RollbackStatement(id));
    }
  }

  /** `create_for_uri`: builds a NestedTransaction on the given connection for the given adapter. */
  method CreateForUri(vars: ClassVars, uri: string, connection: Connection, adapter: Adapter, pid: nat, time: string)
    returns (tx: NestedTransaction)
    modifies vars
    ensures fresh(tx)
    ensures vars.counter == old(vars.counter) + 1
    ensures tx.adapter == adapter && tx.connection == connection
    ensures tx.id == SavepointId(vars.sha256(Seed(vars.host, pid, time, vars.counter)))
  {
    tx := new NestedTransaction(vars, uri, connection, adapter, pid, time);
  }
}
