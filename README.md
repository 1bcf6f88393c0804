# dm-nested-transactions, modelled in Dafny

The Ruby library dm-nested-transactions adds nested transactions to DataMapper
on top of DataObjects. When a DataMapper transaction connects an adapter that
is already inside a transaction, it binds a savepoint primitive
(`DataObjects::NestedTransaction`) instead of the adapter's ordinary
transaction primitive. That primitive runs `SAVEPOINT "<id>"`,
`RELEASE SAVEPOINT "<id>"` and `ROLLBACK TO SAVEPOINT "<id>"`, the savepoint
statements of ISO/IEC 9075-2 (SQL/Foundation). The id is 11 hex digits of a
SHA-256 digest of the host name, the process id, the time and a class-wide
counter.

The model has these parts:

- `wrappers.dfy` (`Wrappers`): `Option` for Ruby's `nil`, `Result` for a raised error.
- `collaborators.dfy` (`Collaborators`): the objects the library uses but does not define.
  - A `Connection` is modelled as the log of the statements executed on it.
  - An `Adapter` has a class name, a flag for "has a current transaction" and a current connection.
- `statements.dfy` (`Statements`): the three statement builders and the `/oracle/i` commit rule.
  - The regular-expression search is proved equal to "the word occurs somewhere, ignoring case".
  - A parser reads each statement back as its command and id.
- `identifiers.dfy` (`Identifiers`): how an id is made.
  - Ruby's decimal `to_s`, the hashed seed string, and Ruby's inclusive `[0..10]` slice.
  - The SHA-256 digest is any function into 64-digit lower-case hex strings.
- `data_objects.dfy` (`DataObjects`): the class-level state (HOST, `@@counter`) and the `NestedTransaction` class.
  - `begin`, `commit`, `rollback` and `close` have exact postconditions on the connection log.
- `data_mapper.dfy` (`DataMapper`): `connect_adapter` as a method on a `Transaction` class.
  - It has a map of bound primitives, specified by the pure guarded insert `BindPrimitive`.
- `scenarios.dfy` (`Scenarios`): three callers that reason from the contracts alone.
  - A nested rollback, an Oracle commit and a root connect.

What the code does and does not do:

- Only class names matching `/oracle/i` get a commit that executes nothing.
- `@@counter` is updated without synchronisation.
- Nothing checks the order of begin, commit, rollback and close.
- Ids are distinct only as far as the truncated digest is. The model proves that two successive constructions hash different strings, because their counters differ. It does not prove that the ids differ.

## Model

| member | source | states |
|---|---|---|
| `Collaborators.Connection.ExecuteNonQuery` | lib/dm-nested-transactions.rb:91 | executing a statement on the connection appends exactly that statement to its log |
| `Statements.BeginStatement` | lib/dm-nested-transactions.rb:70-72 | SAVEPOINT followed by the id in double quotes: reading the quoted name back gives the id |
| `Statements.ReleaseStatement` | lib/dm-nested-transactions.rb:79 | RELEASE SAVEPOINT followed by the id in double quotes: reading the quoted name back gives the id |
| `Statements.RollbackStatement` | lib/dm-nested-transactions.rb:83-85 | ROLLBACK TO SAVEPOINT followed by the id in double quotes: reading the quoted name back gives the id |
| `Statements.ContainsOracle` | lib/dm-nested-transactions.rb:75-76 | the left-to-right search for /oracle/i succeeds exactly when "oracle" occurs somewhere in the name, ignoring ASCII case |
| `Statements.MatchesOracleStep` | lib/dm-nested-transactions.rb:75-76 | a name shorter than "oracle" never matches; a longer one matches exactly when it starts with the word or its tail matches |
| `Statements.CommitStatement` | lib/dm-nested-transactions.rb:74-81 | no statement exactly when the adapter's class name is present and matches /oracle/i; otherwise RELEASE SAVEPOINT "<id>" |
| `Statements.ParseStatement` | lib/dm-nested-transactions.rb:70-85 | a statement that parses as a savepoint command is exactly the builder's text for that command and name |
| `Statements.StatementsRoundTrip` | lib/dm-nested-transactions.rb:70-85 | each of the three built statements parses back to its own command kind and the very id it was built from |
| `Statements.StatementsDistinct` | lib/dm-nested-transactions.rb:70-85 | the three statements never coincide, and each determines the id it names |
| `Identifiers.Decimal` | lib/dm-nested-transactions.rb:67 | the interpolated pid and counter are non-empty strings of decimal digits with no leading zero |
| `Identifiers.DecimalRoundTrip` | lib/dm-nested-transactions.rb:67 | reading a printed number back gives the number, so different numbers print differently |
| `Identifiers.AfterLastColonOf` | lib/dm-nested-transactions.rb:67 | in "<x>:<d>" with no colon in d, the text after the last colon is d |
| `Identifiers.Seed` | lib/dm-nested-transactions.rb:67 | the string "<HOST>:<pid>:<time>:nested:<counter>" that is hashed; the counter can be read back from it, whatever the host, pid and time |
| `Identifiers.SeedDeterminesCounter` | lib/dm-nested-transactions.rb:67 | two hashed strings with different counters differ, whatever the host, pid and time |
| `Identifiers.InclusiveSlice` | lib/dm-nested-transactions.rb:67 | Ruby's `s[first..last]`: nil past the end, otherwise the characters from first to last cut at the end of the string |
| `Identifiers.SavepointId` | lib/dm-nested-transactions.rb:67 | the id is the digest's first 11 characters, all lower-case hex digits, with no double quote to escape |
| `DataObjects.ClassVars.constructor` | lib/dm-nested-transactions.rb:47-48 | HOST is the resolved host name or "localhost" when resolution raises; the counter starts at 0 |
| `DataObjects.NestedTransaction.constructor` | lib/dm-nested-transactions.rb:64-68 | the counter rises by exactly 1; adapter and connection are bound; the id is the 11-digit prefix of the digest of the seed with the new counter |
| `DataObjects.CreateForUri` | lib/dm-nested-transactions.rb:56-59 | a fresh NestedTransaction on the given connection and adapter, with the counter incremented once |
| `DataObjects.NestedTransaction.Close` | lib/dm-nested-transactions.rb:87-88 | executes nothing and leaves the connection unchanged |
| `DataObjects.NestedTransaction.Begin` | lib/dm-nested-transactions.rb:90-92 | appends exactly SAVEPOINT "<id>" to the connection log |
| `DataObjects.NestedTransaction.Commit` | lib/dm-nested-transactions.rb:94-99 | appends nothing when the adapter's class name matches /oracle/i, otherwise exactly RELEASE SAVEPOINT "<id>" |
| `DataObjects.NestedTransaction.Rollback` | lib/dm-nested-transactions.rb:101-103 | appends exactly ROLLBACK TO SAVEPOINT "<id>" to the connection log |
| `DataMapper.NestedTransactionPrimitive` | lib/dm-nested-transactions.rb:36-38 | a fresh savepoint primitive bound to the adapter and to its current connection |
| `DataMapper.BindPrimitive` | lib/dm-nested-transactions.rb:21-31 | fails with "already a primitive" exactly when the adapter is bound; otherwise adds that one key and keeps every other binding |
| `DataMapper.SecondBindFails` | lib/dm-nested-transactions.rb:21-23 | binding an adapter a second time fails and the first binding stays |
| `DataMapper.BindOrderIrrelevant` | lib/dm-nested-transactions.rb:31 | binding two different adapters gives the same map in either order |
| `DataMapper.Transaction.ConnectAdapter` | lib/dm-nested-transactions.rb:20-32 | if the adapter is already bound: the error, with map and counter unchanged. Otherwise the map grows by BindPrimitive. The primitive is a savepoint exactly when the adapter has a current transaction: a fresh one on its current connection, one counter step. If not, it is the adapter's ordinary primitive. |

## Left out

- `DataMapper::Resource#transaction`: a one-line delegation to the class's `transaction`; it is not modelled.
- The Rails initialiser that extends the repository's adapter with `NestedTransactions`: framework start-up glue. The model assumes every adapter has `nested_transaction_primitive`.
- The host-name lookup (`Socket::gethostbyname`, `Socket::gethostname`) is an input: `ClassVars.constructor` receives its result or `None` when it raises.
- The process id `$$` and `Time.now.to_f` are inputs. The time is its printed text, as an opaque string, because floating point is not modelled.
- The SHA-256 digest is an arbitrary function into 64-digit lower-case hex strings, so nothing is claimed about collisions of the truncated id.
- `DataObjects.CreateForUri`: does not model `URI::parse`, which may raise on a malformed string. The uri is not used afterwards.
- `validate_primitive` and the ordinary `transaction_primitive` live in dm-core and data_objects. They are not part of this model. The ordinary primitive is the abstract value `Root(adapter)`, and validation accepts both kinds of primitive.
- `DataMapper.Transaction.constructor`: the empty `@transaction_primitives` hash is set up in dm-core, which is not part of this model.
- Executing a statement only appends it to the connection log. Database errors, timeouts and what a savepoint does inside the database are not modelled.
- `Statements.ContainsOracle`: the match folds ASCII letters only. Any non-ASCII case folding Ruby's regular expressions apply is not modelled.
- `DataObjects.ClassVars`: the model treats `@@counter` as NestedTransaction's own. In Ruby a class variable is shared with the superclass when the superclass declares it. `DataObjects::Transaction` is that superclass; it is not part of this model. If its constructions also increment the counter, then building the ordinary primitive moves it too. `DataMapper.Transaction.ConnectAdapter` states that the root branch leaves the counter alone only because the ordinary primitive is abstract here.
- The `@@counter` update is not synchronised in the source. Concurrency is not modelled: each construction is one atomic step.
- The order of begin, commit, rollback and close is not checked by the source, and the model does not check it either.
