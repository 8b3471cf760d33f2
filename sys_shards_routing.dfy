/**
 * Routing of the sys.shards system table: which shards, on which nodes, a query on the
 * table must visit. Open indices are optionally narrowed to those the session user holds
 * a TABLE privilege for; then every shard group contributes one shard id to a two-level
 * map node id -> index name -> shard ids. Unassigned shards are put on the local node
 * under a negative id.
 */
module SysShardsRouting {
  import opened Wrappers
  import opened WhereClauses

  type NodeId = string
  type IndexName = string

  /** Ids produced by `UnassignedShard.markUnassigned`, which promises a negative id. */
  type NegativeId = x: int | x < 0 witness -1

  /** node id -> index name -> shard ids, in the order they were added. */
  type Locations = map<NodeId, map<IndexName, seq<int>>>

  datatype ShardId = ShardId(index: IndexName, id: nat)

  /** The first routing entry of a shard group: the node holding the copy and its id. */
  datatype ShardRouting = ShardRouting(currentNodeId: NodeId, id: nat)

  /** One shard group; `first` is what `nextOrNull()` yields (None for an unassigned shard). */
  datatype ShardIterator = ShardIterator(shardId: ShardId, first: Option<ShardRouting>)

  /**
   * The cluster-state snapshot: the open concrete indices, the shard groups of each index
   * in the routing table, and the local node id.
   */
  datatype ClusterState = ClusterState(
    openIndices: seq<IndexName>,
    shardGroups: map<IndexName, seq<ShardIterator>>,
    localNodeId: NodeId)

  datatype PrivilegeClass = Cluster | Schema | Table

  /** A user, observed only through `hasAnyPrivilege(class, ident)`. */
  datatype User = User(name: string, hasAnyPrivilege: (PrivilegeClass, string) -> bool)

  datatype SessionContext = SessionContext(user: Option<User>)

  /** Helpers whose bodies are outside this model. */
  datatype Externals = Externals(
    fqnFromIndexName: IndexName -> string,
    markUnassigned: nat -> NegativeId)

  /** Every shard group filed under an index belongs to that index. */
  ghost predicate WellFormed(cluster: ClusterState) {
    forall index, k | index in cluster.shardGroups && 0 <= k < |cluster.shardGroups[index]| ::
      cluster.shardGroups[index][k].shardId.index == index
  }

  // ---------------------------------------------------------------------------------------
  // The nested map insert of processShardRouting

  /** The shard ids recorded for (node, index); empty when either level is missing. */
  function ShardsAt(r: Locations, node: NodeId, index: IndexName): seq<int> {
    if node in r && index in r[node] then r[node][index] else []
  }

  /** No inner map and no list in the routing is empty. */
  ghost predicate NoEmptyBuckets(r: Locations) {
    forall node | node in r :: r[node] != map[] && forall index | index in r[node] :: r[node][index] != []
  }

  /**
   * The routing after appending `id` to the list at r[node][index], creating the inner map
   * and the list when missing.
   */
  function Place(r: Locations, node: NodeId, index: IndexName, id: int): (r': Locations)
    ensures ShardsAt(r', node, index) == ShardsAt(r, node, index) + [id]
    ensures forall n, i | n != node || i != index :: ShardsAt(r', n, i) == ShardsAt(r, n, i)
    ensures r'.Keys == r.Keys + {node}
    ensures r'[node].Keys == (if node in r then r[node].Keys else {}) + {index}
    ensures forall n | n in r && n != node :: r'[n] == r[n]
  {
    var nodeMap := if node in r then r[node] else map[];
    var shards := if index in nodeMap then nodeMap[index] else [];
    r[node := nodeMap[index := shards + [id]]]
  }

  lemma PlaceKeepsBucketsNonEmpty(r: Locations, node: NodeId, index: IndexName, id: int)
    requires NoEmptyBuckets(r)
    ensures NoEmptyBuckets(Place(r, node, index, id))
  {
  }

  /** Where one shard group is recorded. */
  datatype Placement = Placement(node: NodeId, index: IndexName, id: int)

  /**
   * A present routing entry puts the shard under its current node with its own id; an
   * absent one puts it under the local node with the unassigned-marked (negative) id.
   */
  function PlacementOf(localNodeId: NodeId, it: ShardIterator, ext: Externals): (p: Placement)
    ensures p.index == it.shardId.index
    ensures it.first.None? <==> p.id < 0
    ensures it.first.None? ==> p.node == localNodeId && p.id == ext.markUnassigned(it.shardId.id)
    ensures it.first.Some? ==> p.node == it.first.value.currentNodeId && p.id == it.first.value.id
  {
    match it.first
    case None => Placement(localNodeId, it.shardId.index, ext.markUnassigned(it.shardId.id))
    case Some(routing) => Placement(routing.currentNodeId, it.shardId.index, routing.id)
  }

  /** The `TreeMap` of `TreeMap`s that getRouting fills. */
  class LocationsMap {
    var entries: Locations

    constructor ()
      ensures entries == map[]
    {
      entries := map[];
    }
  }

  /** processShardRouting: file one shard group into `routing`. */
  method ProcessShardRouting(localNodeId: NodeId, routing: LocationsMap, shardRouting: Option<ShardRouting>,
                             shardId: ShardId, ext: Externals)
    modifies routing
    ensures routing.entries ==
      var p := PlacementOf(localNodeId, ShardIterator(shardId, shardRouting), ext);
      Place(old(routing.entries), p.node, p.index, p.id)
  {
    ghost var p := PlacementOf(localNodeId, ShardIterator(shardId, shardRouting), ext);
    var node: NodeId;
    var id: int;
    var index := shardId.index;
    if shardRouting.None? {
      node := localNodeId;
      id := ext.markUnassigned(shardId.id);
    } else {
      node := shardRouting.value.currentNodeId;
      id := shardRouting.value.id;
    }
    var nodeMap: map<IndexName, seq<int>>;
    if node in routing.entries {
      nodeMap := routing.entries[node];
    } else {
      nodeMap := map[];
      routing.entries := routing.entries[node := nodeMap];
    }
    ghost var storedNodeMap := nodeMap;
    var shards: seq<int>;
    if index in nodeMap {
      shards := nodeMap[index];
    } else {
      shards := [];
      nodeMap := nodeMap[index := shards];
    }
    assert node == p.node && index == p.index && id == p.id;
    // the inner map and list are values here: the append is written back through both levels
    shards := shards + [id];
    routing.entries := routing.entries[node := nodeMap[index := shards]];
    assert nodeMap[index := shards] == storedNodeMap[index := shards];
  }

  // ---------------------------------------------------------------------------------------
  // Specification of getRouting

  /** The routing built by filing `its` one after the other into an empty map. */
  function RoutingOf(localNodeId: NodeId, its: seq<ShardIterator>, ext: Externals): (r: Locations)
    decreases |its|
  {
    if its == [] then map[]
    else
      var p := PlacementOf(localNodeId, its[|its| - 1], ext);
      Place(RoutingOf(localNodeId, its[..|its| - 1], ext), p.node, p.index, p.id)
  }

  /** The ids, in iteration order, of the shard groups that are filed under (node, index). */
  function IdsAt(localNodeId: NodeId, its: seq<ShardIterator>, ext: Externals, node: NodeId, index: IndexName): seq<int>
    decreases |its|
  {
    if its == [] then []
    else
      var p := PlacementOf(localNodeId, its[|its| - 1], ext);
      IdsAt(localNodeId, its[..|its| - 1], ext, node, index) + (if p.node == node && p.index == index then [p.id] else [])
  }

  /** The indices a user with privileges `user` may see: those with some TABLE privilege, in order. */
  function AccessibleIndices(indices: seq<IndexName>, user: User, fqn: IndexName -> string): (r: seq<IndexName>)
    ensures forall x :: x in r <==> x in indices && user.hasAnyPrivilege(Table, fqn(x))
    ensures Subsequence(r, indices)
    ensures forall x :: multiset(r)[x] == if user.hasAnyPrivilege(Table, fqn(x)) then multiset(indices)[x] else 0
    decreases |indices|
  {
    if indices == [] then []
    else
      var last := indices[|indices| - 1];
      var prefix := AccessibleIndices(indices[..|indices| - 1], user, fqn);
      assert indices == indices[..|indices| - 1] + [last];
      assert multiset(indices) == multiset(indices[..|indices| - 1]) + multiset{last};
      if user.hasAnyPrivilege(Table, fqn(last)) then
        assert (prefix + [last])[..|prefix|] == prefix;
        prefix + [last]
      else
        prefix
  }

  /** `a` is `b` with some elements deleted: the retained ones keep their relative order. */
  ghost predicate Subsequence<T>(a: seq<T>, b: seq<T>)
    decreases |b|
  {
    if a == [] then true
    else if b == [] then false
    else (a[|a| - 1] == b[|b| - 1] && Subsequence(a[..|a| - 1], b[..|b| - 1])) || Subsequence(a, b[..|b| - 1])
  }

  /** The user of the session, absent when there is no session or no user. */
  function SessionUser(session: Option<SessionContext>): Option<User> {
    if session.Some? then session.value.user else None
  }

  /** The indices whose shards are routed: all open ones, or the accessible ones when a user is present. */
  function RoutedIndices(cluster: ClusterState, session: Option<SessionContext>, ext: Externals): seq<IndexName> {
    var user := SessionUser(session);
    if user.Some? then AccessibleIndices(cluster.openIndices, user.value, ext.fqnFromIndexName)
    else cluster.openIndices
  }

  /** `allAssignedShardsGrouped`: the shard groups of the requested indices, index by index. */
  function AllAssignedShardsGrouped(cluster: ClusterState, indices: seq<IndexName>): seq<ShardIterator>
    decreases |indices|
  {
    if indices == [] then []
    else
      var last := indices[|indices| - 1];
      AllAssignedShardsGrouped(cluster, indices[..|indices| - 1])
        + (if last in cluster.shardGroups then cluster.shardGroups[last] else [])
  }

  /** The routing getRouting returns; note that it has no where-clause argument. */
  function RoutingSpec(cluster: ClusterState, session: Option<SessionContext>, ext: Externals): Locations {
    RoutingOf(cluster.localNodeId, AllAssignedShardsGrouped(cluster, RoutedIndices(cluster, session, ext)), ext)
  }

  /** The privilege filter of getRouting: keep the indices whose table the user has any TABLE privilege on. */
  method AccessibleTables(concreteIndices: seq<IndexName>, user: User, ext: Externals)
    returns (accessibleTables: seq<IndexName>)
    ensures accessibleTables == AccessibleIndices(concreteIndices, user, ext.fqnFromIndexName)
  {
    accessibleTables := [];
    for j := 0 to |concreteIndices|
      invariant accessibleTables == AccessibleIndices(concreteIndices[..j], user, ext.fqnFromIndexName)
    {
      var indexName := concreteIndices[j];
      var tableName := ext.fqnFromIndexName(indexName);
      assert concreteIndices[..j + 1][..j] == concreteIndices[..j];
      if user.hasAnyPrivilege(Table, tableName) {
        accessibleTables := accessibleTables + [indexName];
      }
    }
    assert concreteIndices[..|concreteIndices|] == concreteIndices;
  }

  /**
   * getRouting: all shards of all open indices (narrowed by the user's privileges), grouped
   * by node and index. The where clause is accepted and ignored.
   */
  method GetRouting(cluster: ClusterState, whereClause: WhereClause, session: Option<SessionContext>, ext: Externals)
    returns (routing: Locations)
    ensures routing == RoutingSpec(cluster, session, ext)
  {
    var concreteIndices := cluster.openIndices;
    var user := SessionUser(session);
    if user.Some? {
      concreteIndices := AccessibleTables(concreteIndices, user.value, ext);
    }

    var groupShardsIterator := AllAssignedShardsGrouped(cluster, concreteIndices);
    var locations := new LocationsMap();
    for k := 0 to |groupShardsIterator|
      invariant locations.entries == RoutingOf(cluster.localNodeId, groupShardsIterator[..k], ext)
    {
      var shardIt := groupShardsIterator[k];
      assert groupShardsIterator[..k + 1][..k] == groupShardsIterator[..k];
      ProcessShardRouting(cluster.localNodeId, locations, shardIt.first, shardIt.shardId, ext);
    }
    assert groupShardsIterator[..|groupShardsIterator|] == groupShardsIterator;
    routing := locations.entries;
  }

  // ---------------------------------------------------------------------------------------
  // Properties of the routing

  /** The list at (node, index) holds exactly the ids of the groups filed there, in iteration order. */
  lemma {:induction false} RoutingOfShardsAt(localNodeId: NodeId, its: seq<ShardIterator>, ext: Externals,
                                             node: NodeId, index: IndexName)
    ensures ShardsAt(RoutingOf(localNodeId, its, ext), node, index) == IdsAt(localNodeId, its, ext, node, index)
    decreases |its|
  {
    if its != [] {
      RoutingOfShardsAt(localNodeId, its[..|its| - 1], ext, node, index);
    }
  }

  /** The routing never holds an empty inner map or an empty list. */
  lemma {:induction false} RoutingOfNoEmptyBuckets(localNodeId: NodeId, its: seq<ShardIterator>, ext: Externals)
    ensures NoEmptyBuckets(RoutingOf(localNodeId, its, ext))
    decreases |its|
  {
    if its != [] {
      RoutingOfNoEmptyBuckets(localNodeId, its[..|its| - 1], ext);
      var p := PlacementOf(localNodeId, its[|its| - 1], ext);
      PlaceKeepsBucketsNonEmpty(RoutingOf(localNodeId, its[..|its| - 1], ext), p.node, p.index, p.id);
    }
  }

  /** An id filed under (node, index) comes from a shard group placed there. */
  lemma {:induction false} IdsAtSource(localNodeId: NodeId, its: seq<ShardIterator>, ext: Externals,
                                       node: NodeId, index: IndexName, id: int)
    requires id in IdsAt(localNodeId, its, ext, node, index)
    ensures exists k :: 0 <= k < |its| && PlacementOf(localNodeId, its[k], ext) == Placement(node, index, id)
    decreases |its|
  {
    var p := PlacementOf(localNodeId, its[|its| - 1], ext);
    if id in IdsAt(localNodeId, its[..|its| - 1], ext, node, index) {
      IdsAtSource(localNodeId, its[..|its| - 1], ext, node, index, id);
      var k :| 0 <= k < |its| - 1 && PlacementOf(localNodeId, its[..|its| - 1][k], ext) == Placement(node, index, id);
      assert its[..|its| - 1][k] == its[k];
    } else {
      assert p == Placement(node, index, id);
    }
  }

  /** Every shard group contributes its id to the list of the node and index it is placed at. */
  lemma {:induction false} EveryShardPlaced(localNodeId: NodeId, its: seq<ShardIterator>, ext: Externals, k: nat)
    requires k < |its|
    ensures var p := PlacementOf(localNodeId, its[k], ext);
            p.id in ShardsAt(RoutingOf(localNodeId, its, ext), p.node, p.index)
    decreases |its|
  {
    var p := PlacementOf(localNodeId, its[k], ext);
    if k < |its| - 1 {
      EveryShardPlaced(localNodeId, its[..|its| - 1], ext, k);
      assert its[..|its| - 1][k] == its[k];
    }
    RoutingOfShardsAt(localNodeId, its[..|its| - 1], ext, p.node, p.index);
  }

  /** An unassigned shard group appears on the local node under a negative id. */
  lemma UnassignedOnLocalNode(localNodeId: NodeId, its: seq<ShardIterator>, ext: Externals, k: nat)
    requires k < |its| && its[k].first.None?
    ensures var id := ext.markUnassigned(its[k].shardId.id);
            id < 0 && id in ShardsAt(RoutingOf(localNodeId, its, ext), localNodeId, its[k].shardId.index)
  {
    EveryShardPlaced(localNodeId, its, ext, k);
  }

  /** A negative id in the routing is the marked id of an unassigned shard on the local node. */
  lemma NegativeIdsAreUnassigned(localNodeId: NodeId, its: seq<ShardIterator>, ext: Externals,
                                 node: NodeId, index: IndexName, id: int)
    requires id in ShardsAt(RoutingOf(localNodeId, its, ext), node, index) && id < 0
    ensures node == localNodeId
    ensures exists k :: 0 <= k < |its| && its[k].first.None? && its[k].shardId.index == index
                        && ext.markUnassigned(its[k].shardId.id) == id
  {
    RoutingOfShardsAt(localNodeId, its, ext, node, index);
    IdsAtSource(localNodeId, its, ext, node, index, id);
  }

  // Counting ids over the nested map

  ghost function SumBy<K, V>(m: map<K, V>, f: V -> nat): nat
    decreases |m|
  {
    if m == map[] then 0
    else
      assert exists k :: k in m by {
        assert m.Keys != {};
      }
      var k :| k in m;
      f(m[k]) + SumBy(m - {k}, f)
  }

  lemma {:induction false} SumByRemove<K, V>(m: map<K, V>, key: K, f: V -> nat)
    requires key in m
    ensures SumBy(m, f) == f(m[key]) + SumBy(m - {key}, f)
    decreases |m|
  {
    var k :| k in m && SumBy(m, f) == f(m[k]) + SumBy(m - {k}, f);
    if k != key {
      SumByRemove(m - {k}, key, f);
      SumByRemove(m - {key}, k, f);
      assert (m - {k}) - {key} == (m - {key}) - {k};
    }
  }

  lemma SumByUpdate<K, V>(m: map<K, V>, key: K, v: V, f: V -> nat)
    ensures SumBy(m[key := v], f) == f(v) + SumBy(m - {key}, f)
  {
    SumByRemove(m[key := v], key, f);
    assert m[key := v] - {key} == m - {key};
  }

  ghost function Length(s: seq<int>): nat { |s| }

  ghost function NodeTotal(nodeMap: map<IndexName, seq<int>>): nat { SumBy(nodeMap, Length) }

  /** The number of shard ids held across all lists of the routing. */
  ghost function TotalIds(r: Locations): nat { SumBy(r, NodeTotal) }

  /** Filing one shard adds exactly one id to the routing. */
  lemma PlaceAddsOne(r: Locations, node: NodeId, index: IndexName, id: int)
    ensures TotalIds(Place(r, node, index, id)) == TotalIds(r) + 1
  {
    var nodeMap := if node in r then r[node] else map[];
    var shards := if index in nodeMap then nodeMap[index] else [];
    var nodeMap' := nodeMap[index := shards + [id]];
    assert Place(r, node, index, id) == r[node := nodeMap'];
    SumByUpdate(nodeMap, index, shards + [id], Length);
    if index in nodeMap {
      SumByRemove(nodeMap, index, Length);
    } else {
      assert nodeMap - {index} == nodeMap;
    }
    assert NodeTotal(nodeMap') == NodeTotal(nodeMap) + 1;
    SumByUpdate(r, node, nodeMap', NodeTotal);
    if node in r {
      SumByRemove(r, node, NodeTotal);
    } else {
      assert r - {node} == r;
      assert NodeTotal(nodeMap) == 0;
    }
  }

  /** The routing holds exactly one id per shard group iterated. */
  lemma {:induction false} RoutingOfTotal(localNodeId: NodeId, its: seq<ShardIterator>, ext: Externals)
    ensures TotalIds(RoutingOf(localNodeId, its, ext)) == |its|
    decreases |its|
  {
    if its != [] {
      RoutingOfTotal(localNodeId, its[..|its| - 1], ext);
      var p := PlacementOf(localNodeId, its[|its| - 1], ext);
      PlaceAddsOne(RoutingOf(localNodeId, its[..|its| - 1], ext), p.node, p.index, p.id);
    }
  }

  // Privilege filtering

  /** Each shard group of the grouped iterator belongs to one of the requested indices. */
  lemma {:induction false} GroupedIndicesRequested(cluster: ClusterState, indices: seq<IndexName>, k: nat)
    requires WellFormed(cluster)
    requires k < |AllAssignedShardsGrouped(cluster, indices)|
    ensures AllAssignedShardsGrouped(cluster, indices)[k].shardId.index in indices
    decreases |indices|
  {
    var last := indices[|indices| - 1];
    var prefix := AllAssignedShardsGrouped(cluster, indices[..|indices| - 1]);
    if k < |prefix| {
      GroupedIndicesRequested(cluster, indices[..|indices| - 1], k);
    } else {
      assert cluster.shardGroups[last][k - |prefix|].shardId.index == last;
    }
  }

  /**
   * With a user present, an index appears in the routing only if it is open and the user
   * holds some TABLE privilege on its fully qualified table name.
   */
  lemma RoutingRespectsPrivileges(cluster: ClusterState, session: Option<SessionContext>, ext: Externals,
                                  node: NodeId, index: IndexName)
    requires WellFormed(cluster)
    requires ShardsAt(RoutingSpec(cluster, session, ext), node, index) != []
    ensures index in cluster.openIndices
    ensures SessionUser(session).Some? ==>
              SessionUser(session).value.hasAnyPrivilege(Table, ext.fqnFromIndexName(index))
  {
    var indices := RoutedIndices(cluster, session, ext);
    var its := AllAssignedShardsGrouped(cluster, indices);
    var s := ShardsAt(RoutingSpec(cluster, session, ext), node, index);
    RoutingOfShardsAt(cluster.localNodeId, its, ext, node, index);
    IdsAtSource(cluster.localNodeId, its, ext, node, index, s[0]);
    var k :| 0 <= k < |its| && PlacementOf(cluster.localNodeId, its[k], ext) == Placement(node, index, s[0]);
    GroupedIndicesRequested(cluster, indices, k);
  }

  /** Every shard group of every routed index shows up in the routing. */
  lemma RoutedIndexShardsAppear(cluster: ClusterState, session: Option<SessionContext>, ext: Externals,
                                index: IndexName, k: nat)
    requires index in RoutedIndices(cluster, session, ext) && index in cluster.shardGroups
    requires k < |cluster.shardGroups[index]|
    ensures var p := PlacementOf(cluster.localNodeId, cluster.shardGroups[index][k], ext);
            p.id in ShardsAt(RoutingSpec(cluster, session, ext), p.node, p.index)
  {
    var indices := RoutedIndices(cluster, session, ext);
    var its := AllAssignedShardsGrouped(cluster, indices);
    var j := GroupedContains(cluster, indices, index, k);
    EveryShardPlaced(cluster.localNodeId, its, ext, j);
  }

  /** The groups of a requested index all occur in the grouped iterator. */
  lemma {:induction false} GroupedContains(cluster: ClusterState, indices: seq<IndexName>, index: IndexName, k: nat)
    returns (j: nat)
    requires index in indices && index in cluster.shardGroups && k < |cluster.shardGroups[index]|
    ensures j < |AllAssignedShardsGrouped(cluster, indices)|
    ensures AllAssignedShardsGrouped(cluster, indices)[j] == cluster.shardGroups[index][k]
    decreases |indices|
  {
    var last := indices[|indices| - 1];
    var prefix := AllAssignedShardsGrouped(cluster, indices[..|indices| - 1]);
    if last == index {
      j := |prefix| + k;
    } else {
      assert indices == indices[..|indices| - 1] + [last];
      assert multiset(indices) == multiset(indices[..|indices| - 1]) + multiset{last};
      j := GroupedContains(cluster, indices[..|indices| - 1], index, k);
    }
  }

  /** The total number of ids in what getRouting returns is the number of shard groups iterated. */
  lemma RoutingSpecTotal(cluster: ClusterState, session: Option<SessionContext>, ext: Externals)
    ensures TotalIds(RoutingSpec(cluster, session, ext))
            == |AllAssignedShardsGrouped(cluster, RoutedIndices(cluster, session, ext))|
  {
    RoutingOfTotal(cluster.localNodeId, AllAssignedShardsGrouped(cluster, RoutedIndices(cluster, session, ext)), ext);
  }
}
