# Linio database layer, modelled in Dafny

This project models the core of the Linio PHP database component and proves
properties of the model. That core covers five things:

- the connection manager (`DatabaseManager`), which keeps one master connection
  and a weighted pool of replica ("slave") connections, sends reads and writes
  to them, and refuses to nest transactions;
- the two replica pools (`SlaveConnections` and its older twin
  `SlaveConnectionCollection`, the one the manager uses), with their slot map for
  weighted selection;
- the connection record (`Connection`);
- the query helpers: `Builder::flatParams`, `Builder::placeholders`, and the
  `NamedArrayParameter` transformer that expands array-valued named parameters
  into one placeholder per element;
- the parts of `PdoAdapter` that do not talk to a database: option validation,
  the driver dispatch of `setPdo`, PDO attribute precedence, the lazily created
  connection handle and MySQL value escaping.

Modules follow the PHP namespaces.

- `Query` (builder.dfy): flatParams and placeholders.
- `Transformer` (named_array_parameter.dfy): NamedArrayParameter.
- `Entity` (entity.dfy): Connection and the two pools.
- `Adapter` (pdo_adapter.dfy): PdoAdapter.
- `Database` (database_manager.dfy): DatabaseManager.

Support modules model the PHP behaviour the code relies on:

- `PhpArray`: ordered arrays with `+` and `unset`.
- `PhpString`: `ltrim`, `%d`, `str_replace` with strings and arrays, `implode` and `is_numeric`.
- `Values`: parameter and option values.
- `Exceptions`: the exceptions as an error datatype.
- `Constants`: driver and role names.
- `Results`: Option and Result.

Imperative PHP stays imperative in the model:

- `flatParams`, `placeholders`, `execute` and `updateConnectionMap` are methods whose loops are proved against specification functions.
- `Connection`, both pools, `PdoAdapter` and `DatabaseManager` are classes whose methods update fields.

Things outside the model enter as parameters:

- Adapters are not run. The manager records every call it makes, and the adapter it makes it on, in a ghost log.
- An exception an adapter or PDO would raise is a `fault` parameter.
- The random number a pool draws is a `draw` parameter.

Where the code and its tests disagree, the model follows the code. The
manager tests call `executeTransaction`, and an adapter test reads members the
adapter does not have. Neither exists in the source, so neither is modelled.

## Model

| member | source | states |
|---|---|---|
| Query.FlatParams | src/Query/Builder.php:9-30 | the result is `Flatten(params)`: each entry's contribution in key order, an array contributing its elements in order and anything else itself |
| Query.FlattenConcat | src/Query/Builder.php:15-27 | flattening distributes over concatenation of parameter arrays |
| Query.FlattenLength | src/Query/Builder.php:18-26 | the flat list's length is the number of non-array values plus the total length of the arrays |
| Query.FlattenScalars | src/Query/Builder.php:18-22 | without array values the flat list is the list of values in key order |
| Query.FlattenOneLevel | src/Query/Builder.php:24-26 | only one level is flattened: every flat value is a non-array parameter or an element of an array parameter, nested arrays kept whole |
| Query.FlattenExample | tests/Query/BuilderTest.php:32-55 | two arrays around a string flatten to their elements and the string, in order |
| Query.Placeholders | src/Query/Builder.php:32-42 | the result is one entry per value, in order, named `:` + ltrim(name, ':') + `_` + index |
| Query.PlaceholderEntriesShape | src/Query/Builder.php:34-41 | as many entries as values (none for none), entry i holds value i under the i-th name, and keys are unique |
| Query.PlaceholderNamesDistinct | src/Query/Builder.php:36-38 | different indexes give different names |
| Query.PlaceholderNameOneColon | src/Query/Builder.php:37 | every generated name starts with exactly one colon whatever colons the parameter name had |
| Query.PlaceholderNameNotParamName | src/Query/Builder.php:37 | a generated name never equals the parameter name it came from |
| Query.PlaceholdersExample | tests/Query/BuilderTest.php:11-30 | `foo` with three values gives `:foo_0`, `:foo_1`, `:foo_2` bound to them in order |
| Transformer.ParamNameToReplace | src/Query/Transformer/NamedArrayParameter.php:38-40 | a key whose first character is a colon is its own token; any other key, the empty key included, gets a colon in front |
| Transformer.Execute | src/Query/Transformer/NamedArrayParameter.php:13-45 | the by-reference query, parameters and thrown exception equal `Transform`: the loop over a snapshot of the parameters, stopping at the first exception with the state reached so far |
| Transformer.FirstUnnamedArray | src/Query/Transformer/NamedArrayParameter.php:17-25 | finds the first entry with a numeric key and an array value, or reports that there is none |
| Transformer.RunError | src/Query/Transformer/NamedArrayParameter.php:18-25 | the loop throws exactly when some numeric key holds an array, empty or not; the exception names the first one and the query and parameters keep every expansion made before it |
| Transformer.TransformError | src/Query/Transformer/NamedArrayParameter.php:18-25 | the call throws iff some numeric key holds an array value |
| Transformer.ScalarStep | src/Query/Transformer/NamedArrayParameter.php:18-30 | a non-array entry, numeric or named, changes neither the query nor the parameters |
| Transformer.RunScalars | src/Query/Transformer/NamedArrayParameter.php:17-44 | a loop over entries without array values changes nothing and throws nothing |
| Transformer.TransformScalars | src/Query/Transformer/NamedArrayParameter.php:17-44 | without array values the query and the parameters come out as they went in |
| Transformer.PlaceholderKeyNames | src/Query/Transformer/NamedArrayParameter.php:36 | the keys of the placeholder array are the generated names, in order |
| Transformer.ArrayStep | src/Query/Transformer/NamedArrayParameter.php:30-43 | an array under a named key: the key is removed; each generated name holds its element unless the parameters already held that name, whose value wins; every other key is unchanged; every token occurrence becomes the names joined by ", " |
| Transformer.EmptyArrayStep | src/Query/Transformer/NamedArrayParameter.php:30-43 | an empty array removes its key and replaces its token with the empty string |
| Transformer.SingleArrayParameter | src/Query/Transformer/NamedArrayParameter.php:30-43 | a lone array parameter becomes exactly its placeholders and its token the list of their names |
| Transformer.ColonSpellingsAgree | src/Query/Transformer/NamedArrayParameter.php:38-40 | as the single array parameter, keys `:k` and `k` give the same query and the same parameters |
| Transformer.ColonSpellingsStep | src/Query/Transformer/NamedArrayParameter.php:30-42 | in any parameters, the entries `:k` and `k` rewrite the query alike and leave every key other than the two spellings reading alike |
| Transformer.TwoElementArray | tests/Query/Transformer/NamedArrayParameterTest.php:56-79 | for any key `k` and query prefix without colons, `(:k)` with two values under `k` becomes `(:k_0, :k_1)` and the parameters become exactly the two placeholders; the test's case is `k` = `uuid` |
| Transformer.TokenInsideLongerName | src/Query/Transformer/NamedArrayParameter.php:42 | the token is also replaced at the start of a longer name: expanding `k` turns `:k` + x into `:k_0` + x |
| Transformer.UnnamedArrayExample | tests/Query/Transformer/NamedArrayParameterTest.php:13-29 | an array under key 0 throws, whatever it holds, and leaves query and parameters untouched |
| PhpArray.GetUnion | src/Query/Transformer/NamedArrayParameter.php:32 | in the array union `+` the left operand's value wins for a shared key and the right one supplies the rest |
| PhpString.ReplaceAllAbsent | src/Query/Transformer/NamedArrayParameter.php:42 | str_replace leaves a subject in which the search string does not occur unchanged |
| PhpString.ReplaceAllMatch | src/Query/Transformer/NamedArrayParameter.php:42 | an occurrence at the start of the subject is replaced and scanning resumes after it, without rescanning the inserted text |
| PhpString.ReplaceAllSkip | src/Query/Transformer/NamedArrayParameter.php:42 | a prefix free of the search string's first character is copied unchanged |
| PhpString.ReplaceCharConcat | src/Adapter/PdoAdapter.php:235 | replacing a one-character search string distributes over concatenation |
| PhpString.ReplaceCharRemoves | src/Adapter/PdoAdapter.php:235 | after replacing a character by a string without it, the character no longer occurs |
| PhpString.SequentialCharReplace | src/Adapter/PdoAdapter.php:235 | str_replace with one-character search strings equals a per-character substitution when no replacement holds a later search character |
| Entity.Connection.constructor | src/Entity/Connection.php:11-34 | every field starts out unset |
| Entity.Connection.GetAdapter | src/Entity/Connection.php:36-39 | returns the stored adapter |
| Entity.Connection.SetAdapter | src/Entity/Connection.php:41-44 | stores the adapter and changes no other field |
| Entity.Connection.GetDriver | src/Entity/Connection.php:46-49 | returns the stored driver |
| Entity.Connection.SetDriver | src/Entity/Connection.php:51-54 | stores the driver and changes no other field |
| Entity.Connection.GetOptions | src/Entity/Connection.php:56-59 | returns the stored options |
| Entity.Connection.SetOptions | src/Entity/Connection.php:61-64 | stores the options and changes no other field |
| Entity.Connection.GetRole | src/Entity/Connection.php:66-69 | returns the stored role |
| Entity.Connection.SetRole | src/Entity/Connection.php:71-74 | stores the role and changes no other field |
| Entity.Connection.GetWeight | src/Entity/Connection.php:76-79 | returns the stored weight |
| Entity.Connection.SetWeight | src/Entity/Connection.php:81-84 | stores the weight and changes no other field |
| Entity.ConnectionFieldsExample | src/Entity/Connection.php:36-84 | each getter returns the value its own setter stored last, whatever was set on other fields in between |
| Entity.BuildConnectionMap | src/Entity/SlaveConnectionCollection.php:88-105 | the map has keys exactly 1 .. the slot count, each mapped to its owner, and the total is the sum of all weights |
| Entity.OwnerInterval | src/Entity/SlaveConnectionCollection.php:93-101 | slot k belongs to connection i iff the slots of the connections before i < k <= those through i |
| Entity.OwnerPrefix | src/Entity/SlaveConnectionCollection.php:94-101 | adding weights never changes the owner of a slot already filled |
| Entity.WeightSumAtMostSlots | src/Entity/SlaveConnectionCollection.php:95-99 | the total weight never exceeds the number of slots and equals it when no weight is negative, so every draw in 1 .. total hits a slot |
| Entity.SlotExample | src/Entity/SlaveConnectionCollection.php:94-101 | weights 1 and 3 give 4 slots: slot 1 to the first connection, slots 2-4 to the second |
| Entity.SlaveConnections.constructor | src/Entity/SlaveConnections.php:11-16 | a new pool is empty and reports one connection at most |
| Entity.SlaveConnections.Add | src/Entity/SlaveConnections.php:18-31 | appends the connection and its weight, leaves earlier ones untouched, makes the pool non-empty and keeps the slot map and total in step with all weights from the second connection on |
| Entity.SlaveConnections.GetAdapter | src/Entity/SlaveConnections.php:33-42 | with one connection its adapter, without drawing; with more, the adapter of the connection whose slot interval contains the draw |
| Entity.SlaveConnections.GetWeightedRandomConnection | src/Entity/SlaveConnections.php:79-84 | the drawn slot's owner, an in-bounds connection whose slot interval contains the draw |
| Entity.SlaveConnections.ToArray | src/Entity/SlaveConnections.php:47-50 | the connections in the order they were added |
| Entity.SlaveConnections.IsEmpty | src/Entity/SlaveConnections.php:52-55 | true iff no connection was added |
| Entity.SlaveConnections.UpdateConnectionMap | src/Entity/SlaveConnections.php:57-77 | rebuilds the slot map from the stored weights and sets the total to their sum |
| Entity.SlaveConnectionCollection.constructor | src/Entity/SlaveConnectionCollection.php:12-37 | a new pool is empty |
| Entity.SlaveConnectionCollection.Add | src/Entity/SlaveConnectionCollection.php:42-53 | appends the connection and its weight, makes the pool non-empty and keeps the slot map and total in step with all weights from the second connection on |
| Entity.SlaveConnectionCollection.GetAdapter | src/Entity/SlaveConnectionCollection.php:58-67 | with one connection its adapter; with more, the adapter of the connection whose slot interval contains the draw |
| Entity.SlaveConnectionCollection.GetWeightedRandomConnection | src/Entity/SlaveConnectionCollection.php:110-116 | the drawn slot's owner, an in-bounds connection whose slot interval contains the draw |
| Entity.SlaveConnectionCollection.ToArray | src/Entity/SlaveConnectionCollection.php:72-75 | the connections in the order they were added |
| Entity.SlaveConnectionCollection.IsEmpty | src/Entity/SlaveConnectionCollection.php:80-83 | true iff no connection was added |
| Entity.SlaveConnectionCollection.UpdateConnectionMap | src/Entity/SlaveConnectionCollection.php:88-105 | rebuilds the slot map from the stored weights and sets the total to their sum |
| Adapter.ValidateStandardDatabaseOptions | src/Adapter/PdoAdapter.php:331-348 | succeeds iff host, port, dbname, username and password are all set; otherwise reports the first one missing, in that order |
| Adapter.ValidateSqliteOptions | src/Adapter/PdoAdapter.php:350-355 | succeeds iff `filepath` is set; a missing `filepath` is reported with the missing-password message |
| Adapter.ValidateAdapterOptions | src/Adapter/PdoAdapter.php:278-291 | mysql, pgsql and sqlsrv get the standard validation, sqlite the sqlite validation, and an unknown driver passes |
| Adapter.Connect | src/Adapter/PdoAdapter.php:253-276 | a known driver with valid options connects unless the driver raises, whose message then becomes a connection error; invalid options report the validation error; an unknown driver raises "Unknown PDO Driver"; a handle is only ever made for a known driver with valid options |
| Adapter.ConnectErrorMode | src/Adapter/PdoAdapter.php:357-377 | every connection uses ERRMODE_EXCEPTION unless `pdo_attributes` sets the error mode; sqlite gets no credentials and only the default attributes; the other drivers get the credentials and the merged attributes with their own defaults |
| Adapter.AttributePrecedence | src/Adapter/PdoAdapter.php:359-366 | `pdo_attributes` override everything, then the default error mode, then the driver's own attributes |
| Adapter.AttributesExample | tests/Adapter/PdoAdapterTest.php:94-112 | persistent connection and warning mode from `pdo_attributes` win, and MySQL's init command stays |
| Adapter.EscapeCharTable | src/Adapter/PdoAdapter.php:235 | backslash, NUL, LF, CR, quote, double quote and Ctrl-Z become a backslash sequence; other characters stay |
| Adapter.MySqlEscapeIsPerCharacter | src/Adapter/PdoAdapter.php:235 | the seven replacements in a row escape each character exactly once, with nothing escaped twice |
| Adapter.EscapeRoundTrip | src/Adapter/PdoAdapter.php:235 | reading the escaped text back gives the original value |
| Adapter.EscapedHasNoControlChars | src/Adapter/PdoAdapter.php:235 | no NUL, LF, CR or Ctrl-Z is left in an escaped value |
| Adapter.EscapeExample | tests/Adapter/PdoAdapterTest.php:355-362 | for any word `w` of lower-case letters, `w'w` LF `w` escapes to `w\'w\nw`; the test's case is `w` = `test` |
| Adapter.PdoAdapter.constructor | src/Adapter/PdoAdapter.php:38-42 | keeps driver and options and does not connect |
| Adapter.PdoAdapter.GetPdo | src/Adapter/PdoAdapter.php:241-248 | connects on first need and reuses that connection afterwards; at most one connection is ever made; a failed attempt leaves none |
| Adapter.PdoAdapter.SetPdo | src/Adapter/PdoAdapter.php:253-276 | stores the connection `Connect` makes or reports its error |
| Adapter.PdoAdapter.EscapeValue | src/Adapter/PdoAdapter.php:231-239 | succeeds iff the driver is MySQL, with the per-character escape that reads back to the value; other drivers raise DatabaseException |
| Adapter.LazyConnectionExample | tests/Adapter/PdoAdapterTest.php:60-72 | the second use of an adapter gets the first use's connection |
| Database.CheckMasterExists | src/DatabaseManager.php:180-185 | raises iff a master exists |
| Database.CheckValidRole | src/DatabaseManager.php:212-219 | passes iff the role is master with no master yet, or slave |
| Database.CheckValidDriver | src/DatabaseManager.php:202-207 | passes iff the driver is mysql, pgsql, sqlite or sqlsrv, else "Invalid driver: " + driver |
| Database.AddConnectionError | src/DatabaseManager.php:53-54 | the role is checked before the driver: a bad role is reported even with a bad driver |
| Database.DatabaseManager.constructor | src/DatabaseManager.php:45-49 | no master, an empty pool, no transaction |
| Database.DatabaseManager.AddConnection | src/DatabaseManager.php:51-64 | fails with the validation error and changes nothing, or returns true and either installs a fresh master (pool untouched) or appends exactly one fresh replica, its weight appended to the pool's weights (master untouched) |
| Database.DatabaseManager.CreateConnection | src/DatabaseManager.php:187-197 | a new connection with every field set and a new, unconnected adapter for its driver and options |
| Database.DatabaseManager.CreateAdapter | src/DatabaseManager.php:170-175 | a new PDO adapter for the driver and options, not yet connected |
| Database.DatabaseManager.GetConnections | src/DatabaseManager.php:69-75 | the master and the replicas in insertion order |
| Database.DatabaseManager.GetWriteAdapter | src/DatabaseManager.php:230-233 | the master's adapter, and an error iff there is no master |
| Database.DatabaseManager.AddReplica | src/DatabaseManager.php:59-61 | the pool gains the connection at its end and the connection's weight at the end of its weights |
| Database.WeightedReadExample | src/DatabaseManager.php:51-64 | replicas added with weights 1 and 3 give the pool weights [1, 3] and total 4, and draws 2 to 4 read from the second replica |
| Database.DatabaseManager.GetReadAdapter | src/DatabaseManager.php:221-228 | the write adapter while a transaction is active or the pool is empty, otherwise the pool's choice for the draw |
| Database.DatabaseManager.Fetch | src/DatabaseManager.php:77-111 | each fetch makes exactly one call, on the read adapter |
| Database.DatabaseManager.Write | src/DatabaseManager.php:113-117 | `execute` and `getLastInsertId` make exactly one call, on the master |
| Database.DatabaseManager.BeginTransaction | src/DatabaseManager.php:119-129 | when active returns false with no call; otherwise raises the flag, then makes one begin call on the master and returns true; the flag stays up if the master fails |
| Database.DatabaseManager.Commit | src/DatabaseManager.php:131-141 | when idle returns false with no call; otherwise one commit on the master, then the flag drops and it returns true; the flag stays up if the master fails |
| Database.DatabaseManager.RollBack | src/DatabaseManager.php:143-153 | when idle returns false with no call; otherwise one rollback on the master, then the flag drops and it returns true; the flag stays up if the master fails |
| Database.SecondMasterExample | tests/Service/DatabaseManagerTest.php:28-58 | a first MySQL master is accepted with true; a second one is refused with "Invalid role: only one master connection is allowed" |
| Database.InvalidDriverExample | tests/Service/DatabaseManagerTest.php:60-74 | driver `nop` is refused with "Invalid driver: nop" |
| Database.InvalidRoleExample | tests/Service/DatabaseManagerTest.php:76-90 | role `nop` is refused with "Invalid role: nop" |
| Database.CommitExample | tests/Service/DatabaseManagerTest.php:110-125 | with a master and a replica, begin and commit both return true, the flag is down afterwards, and the log is exactly a begin and a commit on the master's adapter |
| Database.RollBackExample | tests/Service/DatabaseManagerTest.php:147-162 | with a master and a replica, begin and rollback both return true, the flag is down afterwards, and the log is exactly a begin and a rollback on the master's adapter |
| Database.NestedTransactionExample | tests/Service/DatabaseManagerTest.php:191-207 | begin true, nested begin false, commit true, a second commit false, with two adapter calls in all |

## Left out

- Actual PDO work is not modelled: preparing, executing and fetching statements, `exec`, `lastInsertId`, and the transaction calls on PDO. Nor is the DSN text. This is driver I/O; adapter calls are recorded in a log and their failures are a parameter.
- src/Entity/LazyFetch.php is not part of this model. It wraps a PDO statement cursor.
- Database.DatabaseManager.Fetch: one method stands for the six fetch methods, which differ only in the adapter call they forward. What they return is not modelled.
- The distribution of `rand` and `random_int` is not modelled. The drawn number is a parameter.
- Entity.SlaveConnections.GetAdapter: requires the draw to lie in 1 .. totalWeight when there are two or more connections. This excludes pools whose weights sum below one, where `random_int` would throw and `rand` would pick a slot that is not mapped.
- Entity.SlaveConnectionCollection.GetAdapter: the same precondition on the draw.
- Database.DatabaseManager.GetReadAdapter: the same precondition on the draw, passed on to the pool.
- Entity.Connection.GetAdapter: requires the adapter field to be set. In PHP, reading it while unset fails with a return-type error.
- Entity.Connection.GetDriver: requires the driver field to be set. In PHP, reading it while unset fails with a return-type error.
- Entity.Connection.GetOptions: requires the options field to be set. In PHP, reading it while unset fails with a return-type error.
- Entity.Connection.GetRole: requires the role field to be set. In PHP, reading it while unset fails with a return-type error.
- Entity.Connection.GetWeight: requires the weight field to be set. In PHP, reading it while unset fails with a return-type error.
- Entity.SlaveConnections.Add: requires the connection's weight to be set, for the same reason.
- Entity.SlaveConnectionCollection.Add: requires the connection's weight to be set, for the same reason.
- `createAdapter` looks its class up by name at run time. The model uses the PDO adapter directly, which is what every valid driver maps to. The `adapterOptions` table is therefore not modelled.
- PHP turns numeric string keys such as "5" into integer keys. The model keeps keys as they are given; `is_numeric` is modelled on both kinds.
- Floating-point parameter values are not modelled. Values are null, booleans, integers, strings and arrays.
- The placeholder generator numbers the elements of an array parameter 0 .. n-1. Arrays with other keys are not modelled.
- The exception message for an array under a numeric key includes `var_export` of the value. The model carries the key and the value instead of the text.
- An option array with non-string keys is not modelled. `pdo_attributes` is an array of scalar attributes keyed by integer constants.
- `getPdo` and `setPdo` are modelled, but the adapter's query methods are not. Those are where `getPdo` gets called.
- src/DatabaseAware.php, src/Exception and src/Query/Transformer.php carry no behaviour. The exceptions are an error datatype.
