/** src/DatabaseManager.php: one master connection, a weighted pool of replica
    ("slave") connections, routing of reads and writes, and a flag that keeps
    transactions from nesting. What an adapter does with a call is not modelled;
    the manager records each call it makes, with the adapter it makes it on, in
    a ghost log, and an adapter's exception arrives as a `fault` parameter. */
module Database {
  import opened Results
  import opened Values
  import opened Exceptions
  import opened Constants
  import opened Adapter
  import opened Entity

  const DRIVERS: set<string> := {DRIVER_MYSQL, DRIVER_PGSQL, DRIVER_SQLITE, DRIVER_SQLSRV}

  /** `checkMasterExists()` */
  function CheckMasterExists(masterExists: bool): (r: Option<DbError>)
    ensures r.Some? <==> masterExists
    ensures r.Some? ==> r.value.ConnectionError?
  {
    if masterExists then Some(ConnectionError("Invalid role: only one master connection is allowed")) else None
  }

  /** `checkValidRole($role)`: a master only while there is none, or a slave. */
  function CheckValidRole(role: string, masterExists: bool): (r: Option<DbError>)
    ensures r.None? <==> (role == ROLE_MASTER && !masterExists) || role == ROLE_SLAVE
    ensures r.Some? ==> r.value.ConnectionError?
  {
    if role == ROLE_MASTER then CheckMasterExists(masterExists)
    else if role != ROLE_SLAVE then Some(ConnectionError("Invalid role: " + role))
    else None
  }

  /** `checkValidDriver($driver)` */
  function CheckValidDriver(driver: string): (r: Option<DbError>)
    ensures r.None? <==> driver in DRIVERS
    ensures r.Some? ==> r.value == ConnectionError("Invalid driver: " + driver)
  {
    if driver !in DRIVERS then Some(ConnectionError("Invalid driver: " + driver)) else None
  }

  /** The exception `addConnection` raises before it changes anything: the
      role is checked first, so a bad role is reported even with a bad driver. */
  function AddConnectionError(driver: string, role: string, masterExists: bool): (r: Option<DbError>)
    ensures r.None? <==> driver in DRIVERS && ((role == ROLE_MASTER && !masterExists) || role == ROLE_SLAVE)
    ensures role != ROLE_MASTER && role != ROLE_SLAVE ==> r == Some(ConnectionError("Invalid role: " + role))
    ensures role == ROLE_MASTER && masterExists ==> r == CheckMasterExists(true)
    ensures CheckValidRole(role, masterExists).None? ==> r == CheckValidDriver(driver)
    ensures r.Some? ==> r.value.ConnectionError?
  {
    var roleError := CheckValidRole(role, masterExists);
    if roleError.Some? then roleError else CheckValidDriver(driver)
  }

  /** A connection as `createConnection` leaves it: every field set, and an
      adapter for the same driver and options that has not connected yet. */
  ghost predicate IsConnectionFor(c: Connection, driver: string, options: Options, role: string, weight: int)
    reads c, c.adapter
  {
    && c.driver == Some(driver) && c.options == Some(options) && c.role == Some(role) && c.weight == Some(weight)
    && c.adapter != null && c.adapter.driver == driver && c.adapter.options == options
    && c.adapter.pdo == None && c.adapter.Valid()
  }

  /** The pool's answer to the draw: its only connection's adapter, or the
      adapter of the connection owning the drawn slot. */
  ghost predicate ChosenByPool(pool: SlaveConnectionCollection, draw: int, adapter: PdoAdapter)
    reads pool, pool.connections
  {
    && (|pool.connections| == 1 ==> adapter == pool.connections[0].adapter)
    && (|pool.connections| >= 2 ==>
          exists i :: 0 <= i < |pool.connections| == |pool.originalWeights| && adapter == pool.connections[i].adapter &&
            SlotCount(pool.originalWeights[..i]) < draw <= SlotCount(pool.originalWeights[..i + 1]))
  }

  class DatabaseManager {
    var masterConnection: Connection?
    const slaveConnections: SlaveConnectionCollection
    var hasActiveTransaction: bool
    /** Every adapter call made, in order, with the adapter it went to. */
    ghost var log: seq<(PdoAdapter, AdapterCall)>

    ghost predicate Valid()
      reads this, masterConnection, slaveConnections, slaveConnections.connections
    {
      && slaveConnections.Valid()
      && (masterConnection != null ==> masterConnection.adapter != null)
      && (forall c :: c in slaveConnections.connections ==> c.adapter != null)
    }

    constructor ()
      ensures Valid() && fresh(slaveConnections)
      ensures masterConnection == null && slaveConnections.connections == []
      ensures !hasActiveTransaction && log == []
    {
      masterConnection := null;
      slaveConnections := new SlaveConnectionCollection();
      hasActiveTransaction := false;
      log := [];
    }

    /** `addConnection($driver, $options, $role, $weight)`: validates, then
        either installs the new master or appends one replica. */
    method AddConnection(driver: string, options: Options, role: string := ROLE_MASTER, weight: int := 1)
      returns (r: Result<bool, DbError>)
      requires Valid()
      modifies this`masterConnection, slaveConnections
      ensures Valid()
      ensures var error := AddConnectionError(driver, role, old(masterConnection) != null);
        && (error.Some? ==> r == Failure(error.value))
        && (error.None? ==> r == Success(true))
      ensures r.Failure? ==> masterConnection == old(masterConnection) && unchanged(slaveConnections)
      ensures r.Success? && role == ROLE_MASTER ==>
        && masterConnection != null && fresh(masterConnection)
        && IsConnectionFor(masterConnection, driver, options, role, weight)
        && unchanged(slaveConnections)
      ensures r.Success? && role != ROLE_MASTER ==>
        && masterConnection == old(masterConnection)
        && |slaveConnections.connections| == |old(slaveConnections.connections)| + 1
        && slaveConnections.connections[..|old(slaveConnections.connections)|] == old(slaveConnections.connections)
        && slaveConnections.originalWeights == old(slaveConnections.originalWeights) + [weight]
        && var added := slaveConnections.connections[|old(slaveConnections.connections)|];
           fresh(added) && IsConnectionFor(added, driver, options, role, weight)
    {
      var roleError := CheckValidRole(role, masterConnection != null);
      if roleError.Some? {
        return Failure(roleError.value);
      }
      var driverError := CheckValidDriver(driver);
      if driverError.Some? {
        return Failure(driverError.value);
      }
      var connection := CreateConnection(driver, options, role, weight);
      if role == ROLE_MASTER {
        masterConnection := connection;
      } else {
        AddReplica(connection);
      }
      r := Success(true);
    }

    /** The replica branch of `addConnection`: the pool appends the connection,
        which keeps its fields. */
    method AddReplica(connection: Connection)
      requires Valid() && connection.weight.Some? && connection.adapter != null
      modifies slaveConnections
      ensures Valid()
      ensures slaveConnections.connections == old(slaveConnections.connections) + [connection]
      ensures slaveConnections.originalWeights == old(slaveConnections.originalWeights) + [connection.weight.value]
    {
      slaveConnections.Add(connection);
    }

    /** `createConnection($driver, $options, $role, $weight)` */
    method CreateConnection(driver: string, options: Options, role: string, weight: int)
      returns (connection: Connection)
      ensures fresh(connection) && fresh(connection.adapter)
      ensures IsConnectionFor(connection, driver, options, role, weight)
    {
      connection := new Connection();
      connection.SetDriver(driver);
      connection.SetOptions(options);
      connection.SetRole(role);
      connection.SetWeight(weight);
      var adapter := CreateAdapter(driver, options, role);
      connection.SetAdapter(adapter);
    }

    /** `createAdapter($driver, $options, $role)`: every valid driver maps to
        the PDO adapter. */
    method CreateAdapter(driver: string, options: Options, role: string) returns (adapter: PdoAdapter)
      ensures fresh(adapter) && adapter.Valid()
      ensures adapter.driver == driver && adapter.options == options && adapter.pdo == None
    {
      adapter := new PdoAdapter(driver, options, role);
    }

    /** `getConnections()`: the master under "master", the replicas in the
        order they were added under "slave". */
    function GetConnections(): (connections: (Connection?, seq<Connection>))
      reads this, slaveConnections
      ensures connections.0 == masterConnection && connections.1 == slaveConnections.connections
    {
      (masterConnection, slaveConnections.ToArray())
    }

    /** `getWriteAdapter()`: the master's adapter; calling it without a master
        is PHP's error of a method call on null. */
    function GetWriteAdapter(): (r: Result<PdoAdapter, DbError>)
      reads this, masterConnection
      requires masterConnection != null ==> masterConnection.adapter != null
      ensures r.Success? <==> masterConnection != null
      ensures r.Success? ==> r.value == masterConnection.adapter
      ensures r.Failure? ==> r.error == NullMaster
    {
      if masterConnection == null then Failure(NullMaster) else Success(masterConnection.GetAdapter())
    }

    /** Whether reads go to the replica pool: no transaction is active and
        there is at least one replica. */
    function ReadsFromSlaves(): bool
      reads this, slaveConnections
    {
      !hasActiveTransaction && !slaveConnections.isEmpty
    }

    /** `getReadAdapter()`, with the pool's draw as `draw`: the master while a
        transaction is active or without replicas, otherwise the pool's choice. */
    method GetReadAdapter(draw: int) returns (r: Result<PdoAdapter, DbError>)
      requires Valid()
      requires ReadsFromSlaves() && |slaveConnections.connections| >= 2 ==> 1 <= draw <= slaveConnections.totalWeight
      ensures !ReadsFromSlaves() ==> r == GetWriteAdapter()
      ensures ReadsFromSlaves() ==> r.Success? && ChosenByPool(slaveConnections, draw, r.value)
    {
      if hasActiveTransaction || slaveConnections.isEmpty {
        return GetWriteAdapter();
      }
      var adapter := slaveConnections.GetAdapter(draw);
      r := Success(adapter);
    }

    /** `fetchAll`, `fetchOne`, `fetchValue`, `fetchKeyPairs`, `fetchColumn`
        and `fetchLazy`: the call goes to the read adapter. */
    method Fetch(call: AdapterCall, draw: int, fault: Option<DbError>) returns (error: Option<DbError>)
      requires Valid() && call.IsRead()
      requires ReadsFromSlaves() && |slaveConnections.connections| >= 2 ==> 1 <= draw <= slaveConnections.totalWeight
      modifies this`log
      ensures !ReadsFromSlaves() && masterConnection == null ==> error == Some(NullMaster) && log == old(log)
      ensures !ReadsFromSlaves() && masterConnection != null ==>
                error == fault && log == old(log) + [(masterConnection.adapter, call)]
      ensures ReadsFromSlaves() ==>
        && error == fault && |log| == |old(log)| + 1 && log[..|old(log)|] == old(log)
        && log[|old(log)|].1 == call && ChosenByPool(slaveConnections, draw, log[|old(log)|].0)
    {
      var adapter := GetReadAdapter(draw);
      if adapter.Failure? {
        return Some(adapter.error);
      }
      log := log + [(adapter.value, call)];
      error := fault;
    }

    /** `execute` and `getLastInsertId`: the call goes to the master. */
    method Write(call: AdapterCall, fault: Option<DbError>) returns (error: Option<DbError>)
      requires Valid() && (call.Execute? || call.GetLastInsertId?)
      modifies this`log
      ensures masterConnection == null ==> error == Some(NullMaster) && log == old(log)
      ensures masterConnection != null ==> error == fault && log == old(log) + [(masterConnection.adapter, call)]
    {
      var adapter := GetWriteAdapter();
      if adapter.Failure? {
        return Some(adapter.error);
      }
      log := log + [(adapter.value, call)];
      error := fault;
    }

    /** `beginTransaction()`: refuses to nest; otherwise raises the flag before
        asking the master, so the flag stays up if the master throws. */
    method BeginTransaction(fault: Option<DbError>) returns (r: Result<bool, DbError>)
      requires Valid()
      modifies this`hasActiveTransaction, this`log
      ensures hasActiveTransaction
      ensures old(hasActiveTransaction) ==> r == Success(false) && log == old(log)
      ensures !old(hasActiveTransaction) && masterConnection == null ==> r == Failure(NullMaster) && log == old(log)
      ensures !old(hasActiveTransaction) && masterConnection != null ==>
        && log == old(log) + [(masterConnection.adapter, AdapterCall.BeginTransaction)]
        && r == (if fault.Some? then Failure(fault.value) else Success(true))
    {
      if hasActiveTransaction {
        return Success(false);
      }
      hasActiveTransaction := true;
      var adapter := GetWriteAdapter();
      if adapter.Failure? {
        return Failure(adapter.error);
      }
      log := log + [(adapter.value, AdapterCall.BeginTransaction)];
      if fault.Some? {
        return Failure(fault.value);
      }
      r := Success(true);
    }

    /** `commit()`: without a transaction, false and no call; otherwise the
        master commits and the flag drops, unless the master throws. */
    method Commit(fault: Option<DbError>) returns (r: Result<bool, DbError>)
      requires Valid()
      modifies this`hasActiveTransaction, this`log
      ensures !old(hasActiveTransaction) ==> r == Success(false) && !hasActiveTransaction && log == old(log)
      ensures old(hasActiveTransaction) && masterConnection == null ==>
                r == Failure(NullMaster) && hasActiveTransaction && log == old(log)
      ensures old(hasActiveTransaction) && masterConnection != null ==>
        && log == old(log) + [(masterConnection.adapter, AdapterCall.Commit)]
        && (fault.Some? ==> r == Failure(fault.value) && hasActiveTransaction)
        && (fault.None? ==> r == Success(true) && !hasActiveTransaction)
    {
      if !hasActiveTransaction {
        return Success(false);
      }
      var adapter := GetWriteAdapter();
      if adapter.Failure? {
        return Failure(adapter.error);
      }
      log := log + [(adapter.value, AdapterCall.Commit)];
      if fault.Some? {
        return Failure(fault.value);
      }
      hasActiveTransaction := false;
      r := Success(true);
    }

    /** `rollBack()`: like `commit()`, with a rollback on the master. */
    method RollBack(fault: Option<DbError>) returns (r: Result<bool, DbError>)
      requires Valid()
      modifies this`hasActiveTransaction, this`log
      ensures !old(hasActiveTransaction) ==> r == Success(false) && !hasActiveTransaction && log == old(log)
      ensures old(hasActiveTransaction) && masterConnection == null ==>
                r == Failure(NullMaster) && hasActiveTransaction && log == old(log)
      ensures old(hasActiveTransaction) && masterConnection != null ==>
        && log == old(log) + [(masterConnection.adapter, AdapterCall.RollBack)]
        && (fault.Some? ==> r == Failure(fault.value) && hasActiveTransaction)
        && (fault.None? ==> r == Success(true) && !hasActiveTransaction)
    {
      if !hasActiveTransaction {
        return Success(false);
      }
      var adapter := GetWriteAdapter();
      if adapter.Failure? {
        return Failure(adapter.error);
      }
      log := log + [(adapter.value, AdapterCall.RollBack)];
      if fault.Some? {
        return Failure(fault.value);
      }
      hasActiveTransaction := false;
      r := Success(true);
    }
  }

  /** A manager with a MySQL master and one MySQL replica, as the
      transaction tests set it up. */
  method ManagerWithReplica(options: Options) returns (db: DatabaseManager)
    ensures fresh(db) && db.Valid()
    ensures db.masterConnection != null && |db.slaveConnections.connections| == 1
    ensures !db.hasActiveTransaction && db.log == []
  {
    db := new DatabaseManager();
    var _ := db.AddConnection(DRIVER_MYSQL, options, ROLE_MASTER);
    var _ := db.AddConnection(DRIVER_MYSQL, options, ROLE_SLAVE);
  }

  /** Replicas of weights 1 and 3 give the pool the weights [1, 3]; every draw
      from 2 to 4 then reads from the second replica. */
  method WeightedReadExample(options: Options, draw: int)
    returns (db: DatabaseManager, r: Result<PdoAdapter, DbError>)
    requires 2 <= draw <= 4
    ensures db.slaveConnections.originalWeights == [1, 3] && db.slaveConnections.totalWeight == 4
    ensures |db.slaveConnections.connections| == 2
    ensures r == Success(db.slaveConnections.connections[1].adapter)
  {
    db := new DatabaseManager();
    var _ := db.AddConnection(DRIVER_MYSQL, options, ROLE_MASTER);
    var _ := db.AddConnection(DRIVER_MYSQL, options, ROLE_SLAVE, 1);
    var _ := db.AddConnection(DRIVER_MYSQL, options, ROLE_SLAVE, 3);
    var ws := db.slaveConnections.originalWeights;
    assert ws == [1, 3];
    assert SlotCount(ws[..0]) == 0 && SlotCount(ws[..1]) == 1 && WeightSum(ws) == 4 by {
      assert ws[..0] == [] && ws[..1] == [1];
      SlotExample(2);
    }
    r := db.GetReadAdapter(draw);
  }

  /** The first master is accepted and a second one refused, leaving the
      first in place. */
  method SecondMasterExample(options: Options)
    returns (added: Result<bool, DbError>, again: Result<bool, DbError>)
    ensures added == Success(true)
    ensures again == Failure(ConnectionError("Invalid role: only one master connection is allowed"))
  {
    var db := new DatabaseManager();
    added := db.AddConnection(DRIVER_MYSQL, options, ROLE_MASTER);
    var master := db.masterConnection;
    again := db.AddConnection(DRIVER_MYSQL, options, ROLE_MASTER);
    assert db.GetConnections().0 == master;
  }

  /** Driver `nop` is refused. */
  method InvalidDriverExample(options: Options) returns (r: Result<bool, DbError>)
    ensures r == Failure(ConnectionError("Invalid driver: nop"))
  {
    var db := new DatabaseManager();
    assert "nop" !in DRIVERS;
    assert "Invalid driver: " + "nop" == "Invalid driver: nop";
    r := db.AddConnection("nop", options, ROLE_SLAVE);
  }

  /** Role `nop` is refused. */
  method InvalidRoleExample(options: Options) returns (r: Result<bool, DbError>)
    ensures r == Failure(ConnectionError("Invalid role: nop"))
  {
    var db := new DatabaseManager();
    assert "nop" != ROLE_MASTER && "nop" != ROLE_SLAVE;
    assert "Invalid role: " + "nop" == "Invalid role: nop";
    r := db.AddConnection(DRIVER_MYSQL, options, "nop");
  }

  /** Begin and commit both succeed, each with one call on the master's
      adapter and no other call. */
  method CommitExample(options: Options)
    returns (db: DatabaseManager, begun: Result<bool, DbError>, committed: Result<bool, DbError>)
    ensures begun == Success(true) && committed == Success(true)
    ensures db.masterConnection != null && !db.hasActiveTransaction
    ensures db.log == [(db.masterConnection.adapter, AdapterCall.BeginTransaction),
                       (db.masterConnection.adapter, AdapterCall.Commit)]
  {
    db := ManagerWithReplica(options);
    begun := db.BeginTransaction(None);
    committed := db.Commit(None);
  }


  /** Begin and roll back both succeed, each with one call on the master's
      adapter and no other call. */
  method RollBackExample(options: Options)
    returns (db: DatabaseManager, begun: Result<bool, DbError>, rolledBack: Result<bool, DbError>)
    ensures begun == Success(true) && rolledBack == Success(true)
    ensures db.masterConnection != null && !db.hasActiveTransaction
    ensures db.log == [(db.masterConnection.adapter, AdapterCall.BeginTransaction),
                       (db.masterConnection.adapter, AdapterCall.RollBack)]
  {
    db := ManagerWithReplica(options);
    begun := db.BeginTransaction(None);
    rolledBack := db.RollBack(None);
  }


  /** A nested begin is refused without a call; the commit after it
      succeeds, and a second commit finds nothing to commit. */
  method NestedTransactionExample(options: Options)
    returns (begun: Result<bool, DbError>, nested: Result<bool, DbError>, committed: Result<bool, DbError>,
             idle: Result<bool, DbError>, ghost calls: nat)
    ensures begun == Success(true) && nested == Success(false)
    ensures committed == Success(true) && idle == Success(false)
    ensures calls == 2
  {
    var db := ManagerWithReplica(options);
    begun := db.BeginTransaction(None);
    nested := db.BeginTransaction(None);
    committed := db.Commit(None);
    idle := db.Commit(None);
    calls := |db.log|;
  }
}
