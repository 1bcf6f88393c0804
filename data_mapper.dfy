/**
 * `DataMapper::Transaction#connect_adapter` as reopened by this library:
 * per transaction, each adapter is bound to one primitive, a savepoint
 * primitive when the adapter is already inside a transaction and its
 * ordinary primitive otherwise.
 */
module DataMapper {
  import opened Wrappers
  import opened Collaborators
  import opened Identifiers
  import opened DataObjects

  /**
   * A transaction primitive: the adapter's ordinary `transaction_primitive`
   * (defined outside this library, so kept abstract) or a savepoint one.
   */
  datatype Primitive =
    | Root(adapter: Adapter)
    | Nested(savepoint: NestedTransaction)

  /** The error `connect_adapter` raises: "Already a primitive for adapter ...". */
  datatype Error = AlreadyAPrimitive(adapter: Adapter)

  /**
   * The guarded insert into `@transaction_primitives`: refused when the
   * adapter already has a primitive, otherwise exactly one binding is added
   * and every other binding is kept.
   */
  function BindPrimitive(primitives: map<Adapter, Primitive>, adapter: Adapter, primitive: Primitive)
    : (r: Result<map<Adapter, Primitive>, Error>)
    ensures r.Failure? <==> adapter in primitives
    ensures r.Failure? ==> r.error == AlreadyAPrimitive(adapter)
    ensures r.Success? ==> r.value.Keys == primitives.Keys + {adapter} && r.value[adapter] == primitive
    ensures r.Success? ==> forall a :: a in primitives ==> a in r.value && r.value[a] == primitives[a]
  {
    if adapter in primitives then Failure(AlreadyAPrimitive(adapter))
    else Success(primitives[adapter := primitive])
  }

  /** Binding the same adapter a second time fails, and the first binding stays. */
  lemma SecondBindFails(primitives: map<Adapter, Primitive>, adapter: Adapter, first: Primitive, second: Primitive)
    requires BindPrimitive(primitives, adapter, first).Success?
    ensures BindPrimitive(BindPrimitive(primitives, adapter, first).value, adapter, second)
      == Failure(AlreadyAPrimitive(adapter))
    ensures BindPrimitive(primitives, adapter, first).value[adapter] == first
  {
  }

  /** Binding two different adapters gives the same map in either order. */
  lemma BindOrderIrrelevant(primitives: map<Adapter, Primitive>, a: Adapter, p: Primitive, b: Adapter, q: Primitive)
    requires a != b && a !in primitives && b !in primitives
    ensures BindPrimitive(primitives, a, p).Success? && BindPrimitive(primitives, b, q).Success?
    ensures BindPrimitive(BindPrimitive(primitives, a, p).value, b, q)
      == BindPrimitive(BindPrimitive(primitives, b, q).value, a, p)
  {
    var ab := BindPrimitive(BindPrimitive(primitives, a, p).value, b, q);
    var ba := BindPrimitive(BindPrimitive(primitives, b, q).value, a, p);
    assert ab.Success? && ba.Success?;
    assert ab.value == ba.value;
  }

  /**
   * `NestedTransactions#nested_transaction_primitive`: a savepoint primitive
   * on the adapter's current connection, for this adapter.
   */
  method NestedTransactionPrimitive(adapter: Adapter, vars: ClassVars, pid: nat, time: string)
    returns (tx: NestedTransaction)
    modifies vars
    ensures fresh(tx)
    ensures vars.counter == old(vars.counter) + 1
    ensures tx.adapter == adapter && tx.connection == adapter.currentConnection
    ensures tx.id == SavepointId(vars.sha256(Seed(vars.host, pid, time, vars.counter)))
  {
    tx := CreateForUri(vars, adapter.normalizedUri, adapter.currentConnection, adapter, pid, time);
  }

  /** One logical transaction and the primitive it has bound to each adapter. */
  class Transaction {
    var primitives: map<Adapter, Primitive>

    constructor ()
      ensures primitives == map[]
    {
      primitives := map[];
    }

    /**
     * `connect_adapter`: raises when the adapter already has a primitive in
     * this transaction and then changes nothing; otherwise binds the adapter
     * to a fresh savepoint primitive when the adapter has a current
     * transaction, to its ordinary primitive when it has none, and returns it.
     */
    method ConnectAdapter(adapter: Adapter, vars: ClassVars, pid: nat, time: string)
      returns (r: Result<Primitive, Error>)
      modifies this, vars
      ensures adapter in old(primitives) ==>
        r == Failure(AlreadyAPrimitive(adapter)) && primitives == old(primitives) && vars.counter == old(vars.counter)
      ensures adapter !in old(primitives) ==>
        r.Success? && BindPrimitive(old(primitives), adapter, r.value) == Success(primitives)
      ensures r.Success? ==> (r.value.Nested? <==> adapter.currentTransaction)
      ensures r.Success? && r.value.Root? ==>
        r.value.adapter == adapter && vars.counter == old(vars.counter)
      ensures r.Success? && r.value.Nested? ==>
        && fresh(r.value.savepoint)
        && r.value.savepoint.adapter == adapter
        && r.value.savepoint.connection == adapter.currentConnection
        && vars.counter == old(vars.counter) + 1
        && r.value.savepoint.id == SavepointId(vars.sha256(Seed(vars.host, pid, time, vars.counter)))
    {
      if adapter in primitives {
        return Failure(AlreadyAPrimitive(adapter));
      }
      var primitive: Primitive;
      if adapter.currentTransaction {
        var tx := NestedTransactionPrimitive(adapter, vars, pid, time);
        primitive := Nested(tx);
      } else {
        primitive := Root(adapter);
      }
      primitives := primitives[adapter := primitive];
      r := Success(primitive);
    }
  }
}
