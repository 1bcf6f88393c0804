/**
 * The objects this library talks to but does not define: a DataObjects
 * connection and a DataMapper adapter. Only what the nested-transaction code
 * reads from them or does to them is kept.
 */
module Collaborators {
  import opened Wrappers

  /**
   * A database connection. Executing a statement
   * (`create_command(sql).execute_non_query`) is modelled as appending the
   * statement text to `log`; the database's reaction is not modelled.
   */
  class Connection {
    var log: seq<string>

    constructor ()
      ensures log == []
    {
      log := [];
    }

    /** Runs one statement: the log grows by exactly that statement. */
    method ExecuteNonQuery(sql: string)
      modifies this
      ensures log == old(log) + [sql]
    {
      log := log + [sql];
    }
  }

  /**
   * A repository adapter. `className` is `adapter.class.name`, which is `nil`
   * for an anonymous class; `currentTransaction` says whether
   * `adapter.current_transaction` is non-nil; `currentConnection` is the
   * connection that transaction runs on.
   */
  class Adapter {
    const className: Option<string>
    const normalizedUri: string
    var currentTransaction: bool
    var currentConnection: Connection

    constructor (className: Option<string>, normalizedUri: string, currentTransaction: bool, currentConnection: Connection)
      ensures this.className == className && this.normalizedUri == normalizedUri
      ensures this.currentTransaction == currentTransaction && this.currentConnection == currentConnection
    {
      this.className := className;
      this.normalizedUri := normalizedUri;
      this.currentTransaction := currentTransaction;
      this.currentConnection := currentConnection;
    }
  }
}
