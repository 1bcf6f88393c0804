/**
 * Four uses of the model by a caller that sees only the contracts: a nested
 * scope that rolls back to its savepoint, a nested scope that commits on an
 * Oracle adapter, a root connect, and two savepoints built one after the
 * other.
 */
module Scenarios {
  import opened Wrappers
  import opened Collaborators
  import opened Statements
  import opened Identifiers
  import opened DataObjects
  import opened DataMapper

  /**
   * An adapter already inside a transaction gets a savepoint primitive; its
   * begin and rollback put exactly SAVEPOINT and ROLLBACK TO SAVEPOINT with
   * one and the same id on the shared connection; connecting the adapter
   * again in the same transaction fails and keeps the binding.
   */
  method NestedRollback(sha256: string -> HexDigest)
  {
    var connection := new Connection();
    var adapter := new Adapter(Some("DataMapper::Adapters::PostgresAdapter"), "postgres://localhost/app", true, connection);
    var vars := new ClassVars(None, sha256);
    var scope := new Transaction();
    var r := scope.ConnectAdapter(adapter, vars, 4242, "1700000000.25");
    assert r.Success? && r.value.Nested?;
    var savepoint := r.value.savepoint;
    assert vars.counter == 1 && vars.host == "localhost";
    savepoint.Begin();
    savepoint.Rollback();
    savepoint.Close();
    assert connection.log == [BeginStatement(savepoint.id), RollbackStatement(savepoint.id)];
    var again := scope.ConnectAdapter(adapter, vars, 4242, "1700000000.5");
    assert again == Failure(AlreadyAPrimitive(adapter));
    assert scope.primitives[adapter] == r.value;
  }

  /** On an adapter whose class name contains "Oracle", commit executes nothing. */
  method OracleCommit(sha256: string -> HexDigest)
  {
    var connection := new Connection();
    var name := "DataMapper::Adapters::OracleAdapter";
    var adapter := new Adapter(Some(name), "oracle://localhost/app", true, connection);
    var vars := new ClassVars(Some("db1.example.com"), sha256);
    var savepoint := NestedTransactionPrimitive(adapter, vars, 7, "1700000000.75");
    savepoint.Begin();
    assert OccursIgnoringCaseAt(name, 22, "oracle");
    savepoint.Commit();
    assert connection.log == [BeginStatement(savepoint.id)];
  }

  /** A root adapter (no current transaction) gets its ordinary primitive and no id is drawn. */
  method RootConnect(sha256: string -> HexDigest)
  {
    var connection := new Connection();
    var adapter := new Adapter(None, "sqlite3://memory", false, connection);
    var vars := new ClassVars(None, sha256);
    var scope := new Transaction();
    var r := scope.ConnectAdapter(adapter, vars, 1, "0.0");
    assert r == Success(Root(adapter)) && vars.counter == 0;
    assert scope.primitives == map[adapter := Root(adapter)];
  }

  /**
   * Two savepoints built one after the other, even in the same process at
   * the same printed time, hash different strings: the counter has moved on.
   */
  method SuccessiveConstructions(sha256: string -> HexDigest)
  {
    var connection := new Connection();
    var adapter := new Adapter(Some("DataMapper::Adapters::PostgresAdapter"), "postgres://localhost/app", true, connection);
    var vars := new ClassVars(Some("db1.example.com"), sha256);
    var first := CreateForUri(vars, adapter.normalizedUri, connection, adapter, 4242, "1700000000.25");
    ghost var firstSeed := Seed(vars.host, 4242, "1700000000.25", vars.counter);
    assert first.id == SavepointId(sha256(firstSeed));
    var second := CreateForUri(vars, adapter.normalizedUri, connection, adapter, 4242, "1700000000.25");
    ghost var secondSeed := Seed(vars.host, 4242, "1700000000.25", vars.counter);
    assert second.id == SavepointId(sha256(secondSeed));
    assert CounterOf(firstSeed) == 1 && CounterOf(secondSeed) == 2;
    assert firstSeed != secondSeed;
  }
}
