/**
 * A directed graph keyed by node name: `nodes` holds the data attached to
 * each node and `edges` the data attached to each edge, both as lists that
 * only grow. Adding data to a name that is already present keeps what was
 * there (`try_emplace`).
 */
module Graphs {
  import opened Text
  import opened Ordering
  import opened Maps

  /** `setGraphData`: appends `value` to the list under `key`, creating an empty list first. */
  function Append<V>(m: map<string, seq<V>>, key: string, value: V): (r: map<string, seq<V>>)
    ensures r.Keys == m.Keys + {key}
    ensures r[key] == (if key in m then m[key] else []) + [value]
    ensures forall k :: k in m && k != key ==> r[k] == m[k]
  {
    var created := TryEmplace(m, key, []);
    created[key := created[key] + [value]]
  }

  class Graph<N, E> {
    var edges: map<string, map<string, seq<E>>>
    var nodes: map<string, seq<N>>

    /** Every node named by an edge, at either end, is a node of the graph. */
    predicate Valid()
      reads this
    {
      edges.Keys <= nodes.Keys
      && forall from :: from in edges ==> edges[from].Keys <= nodes.Keys
    }

    constructor()
      ensures Valid() && Empty()
    {
      edges := map[];
      nodes := map[];
    }

    /** `addNode(name, data)`: appends `data` to the node's list even if the node exists. */
    method AddNode(name: string, data: N)
      requires Valid()
      modifies this
      ensures Valid()
      ensures edges == TryEmplace(old(edges), name, map[])
      ensures nodes == Append(old(nodes), name, data)
    {
      edges := TryEmplace(edges, name, map[]);
      nodes := Append(nodes, name, data);
    }

    /** `addEdge(from, to, data)`: appends `data` to the edge and makes both ends nodes. */
    method AddEdge(from: string, to: string, data: E)
      requires Valid()
      modifies this
      ensures Valid()
      ensures from in edges && to in edges[from]
      ensures edges == old(edges)[from := Append(if from in old(edges) then old(edges)[from] else map[], to, data)]
      ensures nodes == TryEmplace(TryEmplace(old(nodes), from, []), to, [])
      ensures to != from && to !in old(edges) ==> to !in edges
    {
      var link := TryEmplace(edges, from, map[])[from];
      edges := edges[from := Append(link, to, data)];
      nodes := TryEmplace(nodes, from, []);
      nodes := TryEmplace(nodes, to, []);
    }

    /** `addNode(name)`: makes `name` a node without attaching data. */
    method AddEmptyNode(name: string)
      requires Valid()
      modifies this
      ensures Valid()
      ensures edges == TryEmplace(old(edges), name, map[])
      ensures nodes == TryEmplace(old(nodes), name, [])
    {
      edges := TryEmplace(edges, name, map[]);
      nodes := TryEmplace(nodes, name, []);
    }

    /** `addEdge(from, to)`: creates the edge with no data, keeping any data it has. */
    method AddEmptyEdge(from: string, to: string)
      requires Valid()
      modifies this
      ensures Valid()
      ensures edges == old(edges)[from := TryEmplace(if from in old(edges) then old(edges)[from] else map[], to, [])]
      ensures nodes == TryEmplace(TryEmplace(old(nodes), from, []), to, [])
      ensures to != from && to !in old(edges) ==> to !in edges
    {
      var link := TryEmplace(edges, from, map[])[from];
      edges := edges[from := TryEmplace(link, to, [])];
      nodes := TryEmplace(nodes, from, []);
      nodes := TryEmplace(nodes, to, []);
    }

    /**
     * Each node with outgoing edges (or added as a node) mapped to its
     * targets, listed in key order.
     */
    method GetAdjacencyList() returns (adjacency: map<string, seq<string>>)
      ensures adjacency.Keys == edges.Keys
      ensures forall from :: from in adjacency ==> adjacency[from] == SortedKeys(edges[from].Keys)
    {
      adjacency := map[];
      // The outer loop visits the sources in ascending order.
      var sources := edges.Keys;
      while sources != {}
        invariant sources <= edges.Keys
        invariant adjacency.Keys == edges.Keys - sources
        invariant forall from :: from in adjacency ==> adjacency[from] == SortedKeys(edges[from].Keys)
        decreases |sources|
      {
        var from := Minimum(sources);
        var list := KeysInOrder(edges[from]);
        // Each source is visited once, so `try_emplace` always inserts.
        adjacency := adjacency[from := list];
        sources := sources - {from};
      }
    }

    /** The inner loop of `getAdjacencyList`: the targets of one source, in key order. */
    static method KeysInOrder(link: map<string, seq<E>>) returns (list: seq<string>)
      ensures list == SortedKeys(link.Keys)
    {
      var targets := link.Keys;
      list := [];
      while targets != {}
        invariant list + SortedKeys(targets) == SortedKeys(link.Keys)
        decreases |targets|
      {
        var to := Minimum(targets);
        list := list + [to];
        targets := targets - {to};
      }
    }

    predicate Empty()
      reads this
    {
      nodes == map[] && edges == map[]
    }
  }
}
