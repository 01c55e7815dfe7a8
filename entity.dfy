/** src/Entity: the connection record and the two weighted pools of replica
    ("slave") connections, SlaveConnections and its older twin
    SlaveConnectionCollection. */
module Entity {
  import opened Results
  import opened Values
  import opened Adapter

  // ---------------------------------------------------------------------------
  // Connection

  /** src/Entity/Connection.php. Every field starts out null; a getter called
      before its setter fails with PHP's return-type error, which the getters
      exclude by their preconditions. */
  class Connection {
    var adapter: PdoAdapter?
    var driver: Option<string>
    var options: Option<Options>
    var role: Option<string>
    var weight: Option<int>

    constructor ()
      ensures adapter == null && driver == None && options == None && role == None && weight == None
    {
      adapter := null;
      driver := None;
      options := None;
      role := None;
      weight := None;
    }

    function GetAdapter(): (r: PdoAdapter)
      reads this
      requires adapter != null
      ensures adapter == r
    {
      adapter
    }

    method SetAdapter(adapter: PdoAdapter)
      modifies this`adapter
      ensures this.adapter == adapter
    {
      this.adapter := adapter;
    }

    function GetDriver(): (r: string)
      reads this
      requires driver.Some?
      ensures driver == Some(r)
    {
      driver.value
    }

    method SetDriver(driver: string)
      modifies this`driver
      ensures this.driver == Some(driver)
    {
      this.driver := Some(driver);
    }

    function GetOptions(): (r: Options)
      reads this
      requires options.Some?
      ensures options == Some(r)
    {
      options.value
    }

    method SetOptions(options: Options)
      modifies this`options
      ensures this.options == Some(options)
    {
      this.options := Some(options);
    }

    function GetRole(): (r: string)
      reads this
      requires role.Some?
      ensures role == Some(r)
    {
      role.value
    }

    method SetRole(role: string)
      modifies this`role
      ensures this.role == Some(role)
    {
      this.role := Some(role);
    }

    function GetWeight(): (r: int)
      reads this
      requires weight.Some?
      ensures weight == Some(r)
    {
      weight.value
    }

    method SetWeight(weight: int)
      modifies this`weight
      ensures this.weight == Some(weight)
    {
      this.weight := Some(weight);
    }
  }

  /** Each getter returns what its own setter stored last, whatever was set
      on the other fields in between. */
  method ConnectionFieldsExample(a: PdoAdapter, options: Options) returns (c: Connection)
    ensures fresh(c)
    ensures c.weight.Some? && c.driver.Some? && c.options.Some? && c.role.Some? && c.adapter != null
    ensures c.GetWeight() == 5 && c.GetDriver() == "mysql" && c.GetOptions() == options
    ensures c.GetRole() == "slave" && c.GetAdapter() == a
  {
    c := new Connection();
    c.SetWeight(3);
    c.SetDriver("mysql");
    c.SetOptions(options);
    c.SetRole("slave");
    c.SetAdapter(a);
    c.SetWeight(5);
  }

  // ---------------------------------------------------------------------------
  // The slot map shared by both pools

  /** The slots a weight fills: the inner loop of `updateConnectionMap` runs
      `weight` times, so not at all for a weight below one. */
  function Slots(weight: int): nat {
    if weight > 0 then weight else 0
  }

  /** The number of slots the weights fill together. */
  function SlotCount(weights: seq<int>): nat {
    if weights == [] then 0 else SlotCount(weights[..|weights| - 1]) + Slots(weights[|weights| - 1])
  }

  /** The sum of the weights, as `updateConnectionMap` adds them up. */
  function WeightSum(weights: seq<int>): int {
    if weights == [] then 0 else WeightSum(weights[..|weights| - 1]) + weights[|weights| - 1]
  }

  /** The connection index stored at slot k. */
  function Owner(weights: seq<int>, k: int): (i: nat)
    requires 1 <= k <= SlotCount(weights)
    ensures i < |weights|
  {
    var n := |weights| - 1;
    if k > SlotCount(weights[..n]) then n else Owner(weights[..n], k)
  }

  /** The connection map holds exactly the slots 1 .. SlotCount, each with its owner. */
  ghost predicate IsSlotMap(connectionMap: map<int, nat>, weights: seq<int>) {
    && (forall k :: k in connectionMap <==> 1 <= k <= SlotCount(weights))
    && (forall k :: k in connectionMap ==> connectionMap[k] == Owner(weights, k))
  }

  lemma {:induction false} SlotCountPrefix(weights: seq<int>, i: nat)
    requires i < |weights|
    ensures SlotCount(weights[..i + 1]) == SlotCount(weights[..i]) + Slots(weights[i])
  {
    assert weights[..i + 1][..i] == weights[..i];
  }

  lemma {:induction false} WeightSumPrefix(weights: seq<int>, i: nat)
    requires i < |weights|
    ensures WeightSum(weights[..i + 1]) == WeightSum(weights[..i]) + weights[i]
  {
    assert weights[..i + 1][..i] == weights[..i];
  }

  /** Prefixes fill no more slots than longer prefixes. */
  lemma {:induction false} SlotCountMonotone(weights: seq<int>, i: nat, j: nat)
    requires i <= j <= |weights|
    ensures SlotCount(weights[..i]) <= SlotCount(weights[..j])
    decreases j - i
  {
    if i < j {
      SlotCountPrefix(weights, j - 1);
      SlotCountMonotone(weights, i, j - 1);
    }
  }

  /** The owners of slots already filled do not change when weights are added. */
  lemma {:induction false} OwnerPrefix(weights: seq<int>, n: nat, k: int)
    requires n <= |weights| && 1 <= k <= SlotCount(weights[..n])
    ensures SlotCount(weights[..n]) <= SlotCount(weights)
    ensures Owner(weights, k) == Owner(weights[..n], k)
    decreases |weights| - n
  {
    assert weights[..|weights|] == weights;
    SlotCountMonotone(weights, n, |weights|);
    if n < |weights| {
      var m := |weights| - 1;
      SlotCountMonotone(weights, n, m);
      assert weights[..m][..n] == weights[..n];
      OwnerPrefix(weights[..m], n, k);
    }
  }

  /** Slot k belongs to connection i exactly when k lies after the slots of the
      connections before i and within i's own: connection i owns the
      `weight_i` consecutive slots that follow theirs. */
  lemma {:induction false} OwnerInterval(weights: seq<int>, k: int, i: nat)
    requires 1 <= k <= SlotCount(weights) && i < |weights|
    ensures Owner(weights, k) == i <==> SlotCount(weights[..i]) < k <= SlotCount(weights[..i + 1])
    decreases |weights|
  {
    var n := |weights| - 1;
    assert weights[..n + 1] == weights;
    if k > SlotCount(weights[..n]) {
      if i < n {
        SlotCountMonotone(weights, i + 1, n);
      }
    } else {
      if i < n {
        assert weights[..n][..i] == weights[..i] && weights[..n][..i + 1] == weights[..i + 1];
        OwnerInterval(weights[..n], k, i);
      }
    }
  }

  /** Every weight counts toward the total, but only a positive one fills
      slots; so the total never exceeds the number of slots, and equals it when
      no weight is negative. */
  lemma {:induction false} WeightSumAtMostSlots(weights: seq<int>)
    ensures WeightSum(weights) <= SlotCount(weights)
    ensures (forall i :: 0 <= i < |weights| ==> weights[i] >= 0) ==> WeightSum(weights) == SlotCount(weights)
    decreases |weights|
  {
    if weights != [] {
      var n := |weights| - 1;
      assert forall i :: 0 <= i < n ==> weights[..n][i] == weights[i];
      WeightSumAtMostSlots(weights[..n]);
    }
  }

  /** The loops of `updateConnectionMap`: for each weight in turn, add it to
      the total and give the next `weight` slots to that connection. */
  method BuildConnectionMap(originalWeights: seq<int>) returns (connectionMap: map<int, nat>, totalWeight: int)
    ensures IsSlotMap(connectionMap, originalWeights)
    ensures totalWeight == WeightSum(originalWeights)
  {
    connectionMap := map[];
    totalWeight := 0;
    var connectionIndex := 0;
    var mapIndex := 1;
    while connectionIndex < |originalWeights|
      invariant 0 <= connectionIndex <= |originalWeights|
      invariant totalWeight == WeightSum(originalWeights[..connectionIndex])
      invariant mapIndex == SlotCount(originalWeights[..connectionIndex]) + 1
      invariant IsSlotMap(connectionMap, originalWeights[..connectionIndex])
    {
      var weight := originalWeights[connectionIndex];
      ghost var done := originalWeights[..connectionIndex];
      ghost var next := originalWeights[..connectionIndex + 1];
      WeightSumPrefix(originalWeights, connectionIndex);
      SlotCountPrefix(originalWeights, connectionIndex);
      totalWeight := totalWeight + weight;
      var i := 0;
      while i < weight
        invariant 0 <= i <= Slots(weight)
        invariant mapIndex == SlotCount(done) + i + 1
        invariant forall k :: k in connectionMap <==> 1 <= k < mapIndex
        invariant forall k :: 1 <= k <= SlotCount(done) ==> connectionMap[k] == Owner(done, k)
        invariant forall k :: SlotCount(done) < k < mapIndex ==> connectionMap[k] == connectionIndex
      {
        connectionMap := connectionMap[mapIndex := connectionIndex];
        mapIndex := mapIndex + 1;
        i := i + 1;
      }
      assert next[..connectionIndex] == done;
      forall k | k in connectionMap ensures connectionMap[k] == Owner(next, k) {
        if k <= SlotCount(done) {
          OwnerPrefix(next, connectionIndex, k);
        }
      }
      connectionIndex := connectionIndex + 1;
    }
    assert originalWeights[..|originalWeights|] == originalWeights;
  }

  // ---------------------------------------------------------------------------
  // src/Entity/SlaveConnections.php

  class SlaveConnections {
    var connections: seq<Connection>
    var isEmpty: bool
    var hasOnlyOneConnection: bool
    var originalWeights: seq<int>
    var connectionMap: map<int, nat>
    /** Uninitialised until the second connection is added. */
    var totalWeight: int

    ghost predicate Valid()
      reads this
    {
      && |connections| == |originalWeights|
      && isEmpty == (|connections| == 0)
      && hasOnlyOneConnection == (|connections| <= 1)
      && (|connections| >= 2 ==>
            IsSlotMap(connectionMap, originalWeights) && totalWeight == WeightSum(originalWeights))
    }

    constructor ()
      ensures Valid() && connections == [] && originalWeights == []
    {
      connections := [];
      isEmpty := true;
      hasOnlyOneConnection := true;
      originalWeights := [];
      connectionMap := map[];
      totalWeight := 0;
    }

    /** `add($connection)`: appends the connection and a copy of its weight,
        and rebuilds the slot map from the second connection on. */
    method Add(connection: Connection)
      requires Valid() && connection.weight.Some?
      modifies this
      ensures Valid()
      ensures connections == old(connections) + [connection]
      ensures originalWeights == old(originalWeights) + [connection.weight.value]
      ensures !isEmpty
    {
      connections := connections + [connection];
      originalWeights := originalWeights + [connection.GetWeight()];
      if |connections| == 1 {
        hasOnlyOneConnection := true;
      } else {
        hasOnlyOneConnection := false;
        UpdateConnectionMap();
      }
      isEmpty := false;
    }

    /** `getAdapter()` with the number `random_int(1, totalWeight)` would draw
        given as `draw`: one connection is returned without drawing; otherwise
        the connection owning slot `draw`. */
    method GetAdapter(draw: int) returns (adapter: PdoAdapter)
      requires Valid() && !isEmpty
      requires forall c :: c in connections ==> c.adapter != null
      requires |connections| >= 2 ==> 1 <= draw <= totalWeight
      ensures |connections| == 1 ==> adapter == connections[0].adapter
      ensures |connections| >= 2 ==>
        exists i :: 0 <= i < |connections| && adapter == connections[i].adapter &&
          SlotCount(originalWeights[..i]) < draw <= SlotCount(originalWeights[..i + 1])
    {
      var connection;
      if hasOnlyOneConnection {
        connection := connections[0];
      } else {
        connection := GetWeightedRandomConnection(draw);
      }
      adapter := connection.GetAdapter();
    }

    /** `getWeightedRandomConnection()`: the drawn slot's owner. */
    method GetWeightedRandomConnection(draw: int) returns (connection: Connection)
      requires Valid() && |connections| >= 2 && 1 <= draw <= totalWeight
      ensures exists i ::
                0 <= i < |connections| && connection == connections[i] &&
                SlotCount(originalWeights[..i]) < draw <= SlotCount(originalWeights[..i + 1])
    {
      WeightSumAtMostSlots(originalWeights);
      var i := connectionMap[draw];
      OwnerInterval(originalWeights, draw, i);
      connection := connections[i];
    }

    /** `toArray()` */
    function ToArray(): (all: seq<Connection>)
      reads this
      ensures all == connections
    {
      connections
    }

    /** `isEmpty()` */
    function IsEmpty(): (empty: bool)
      reads this
      requires Valid()
      ensures empty <==> |connections| == 0
    {
      isEmpty
    }

    /** `updateConnectionMap()` */
    method UpdateConnectionMap()
      requires |connections| == |originalWeights|
      modifies this`connectionMap, this`totalWeight
      ensures IsSlotMap(connectionMap, originalWeights)
      ensures totalWeight == WeightSum(originalWeights)
    {
      connectionMap, totalWeight := BuildConnectionMap(originalWeights);
    }
  }

  // ---------------------------------------------------------------------------
  // src/Entity/SlaveConnectionCollection.php: the same pool, whose
  // `hasOnlyOneConnection` starts out null (false) and which draws with `rand`.

  class SlaveConnectionCollection {
    var connections: seq<Connection>
    var isEmpty: bool
    var hasOnlyOneConnection: bool
    var originalWeights: seq<int>
    var connectionMap: map<int, nat>
    /** Null until the second connection is added. */
    var totalWeight: int

    ghost predicate Valid()
      reads this
    {
      && |connections| == |originalWeights|
      && isEmpty == (|connections| == 0)
      && hasOnlyOneConnection == (|connections| == 1)
      && (|connections| >= 2 ==>
            IsSlotMap(connectionMap, originalWeights) && totalWeight == WeightSum(originalWeights))
    }

    constructor ()
      ensures Valid() && connections == [] && originalWeights == []
    {
      connections := [];
      isEmpty := true;
      hasOnlyOneConnection := false;
      originalWeights := [];
      connectionMap := map[];
      totalWeight := 0;
    }

    /** `add($connection)` */
    method Add(connection: Connection)
      requires Valid() && connection.weight.Some?
      modifies this
      ensures Valid()
      ensures connections == old(connections) + [connection]
      ensures originalWeights == old(originalWeights) + [connection.weight.value]
      ensures !isEmpty
    {
      connections := connections + [connection];
      originalWeights := originalWeights + [connection.GetWeight()];
      if |connections| == 1 {
        hasOnlyOneConnection := true;
      } else {
        hasOnlyOneConnection := false;
        UpdateConnectionMap();
      }
      isEmpty := false;
    }

    /** `getAdapter()` with the number `rand(1, totalWeight)` would draw given
        as `draw`. */
    method GetAdapter(draw: int) returns (adapter: PdoAdapter)
      requires Valid() && !isEmpty
      requires forall c :: c in connections ==> c.adapter != null
      requires |connections| >= 2 ==> 1 <= draw <= totalWeight
      ensures |connections| == 1 ==> adapter == connections[0].adapter
      ensures |connections| >= 2 ==>
        exists i :: 0 <= i < |connections| && adapter == connections[i].adapter &&
          SlotCount(originalWeights[..i]) < draw <= SlotCount(originalWeights[..i + 1])
    {
      var connection;
      if hasOnlyOneConnection {
        connection := connections[0];
      } else {
        connection := GetWeightedRandomConnection(draw);
      }
      adapter := connection.GetAdapter();
    }

    /** `getWeightedRandomConnection()` */
    method GetWeightedRandomConnection(draw: int) returns (connection: Connection)
      requires Valid() && |connections| >= 2 && 1 <= draw <= totalWeight
      ensures exists i ::
                0 <= i < |connections| && connection == connections[i] &&
                SlotCount(originalWeights[..i]) < draw <= SlotCount(originalWeights[..i + 1])
    {
      WeightSumAtMostSlots(originalWeights);
      var i := connectionMap[draw];
      OwnerInterval(originalWeights, draw, i);
      connection := connections[i];
    }

    /** `toArray()` */
    function ToArray(): (all: seq<Connection>)
      reads this
      ensures all == connections
    {
      connections
    }

    /** `isEmpty()` */
    function IsEmpty(): (empty: bool)
      reads this
      requires Valid()
      ensures empty <==> |connections| == 0
    {
      isEmpty
    }

    /** `updateConnectionMap()` */
    method UpdateConnectionMap()
      requires |connections| == |originalWeights|
      modifies this`connectionMap, this`totalWeight
      ensures IsSlotMap(connectionMap, originalWeights)
      ensures totalWeight == WeightSum(originalWeights)
    {
      connectionMap, totalWeight := BuildConnectionMap(originalWeights);
    }
  }

  /** Two replicas weighted 1 and 3: the first owns slot 1, the second slots 2 to 4. */
  lemma SlotExample(k: int)
    requires 1 <= k <= 4
    ensures SlotCount([1, 3]) == WeightSum([1, 3]) == 4
    ensures Owner([1, 3], k) == if k == 1 then 0 else 1
  {
    var ws := [1, 3];
    assert ws[..1] == [1] && [1][..0] == [];
    assert ws[..0] == [] && ws[..2] == ws;
    OwnerInterval(ws, k, 0);
    OwnerInterval(ws, k, 1);
  }
}
