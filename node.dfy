/**
 * Board locations. A Node is a corner where a Settlement or City may stand;
 * a Pathway is an edge between two nodes where a road may be built. Both are
 * objects whose flags and properties change in place during play.
 *
 * Cross references are ids rather than pointers: a node lists the ids of its
 * pathways, terrains and neighbours, and a pathway the ids of its two ends
 * (the board resolves an id to its object).
 */
module Nodes {
  import opened Outcomes
  import opened Topology
  import opened Property

  /** What a node holds: the part of its state that play changes. */
  datatype Site = Site(settlement: Option<Property>, city: Option<Property>, occupied: bool)

  /** A Settlement and a City never stand together, and each one has an owner. */
  predicate SiteValid(s: Site)
  {
    !(s.settlement.Some? && s.city.Some?)
    && (s.settlement.Some? ==> s.settlement.value.holder.Some?)
    && (s.city.Some? ==> s.city.value.holder.Some?)
  }

  /** What a pathway holds: its occupied flag and its owner. */
  datatype Road = Road(occupied: bool, owner: Option<PlayerId>)

  /** An occupied pathway always has an owner (the owner is only read after the occupied check). */
  predicate RoadValid(r: Road)
  {
    r.occupied ==> r.owner.Some?
  }

  class Node {
    const id: int
    var settlement: Option<Property>
    var city: Option<Property>
    var occupied: bool
    var pathways: seq<PathId>
    var terrains: seq<TerrainId>
    var neighbors: seq<NodeId>

    /** A node with the given incidence lists, no neighbours, nothing built and not occupied. */
    constructor (id: int, pathways: seq<PathId>, terrains: seq<TerrainId>)
      ensures this.id == id && this.pathways == pathways && this.terrains == terrains && neighbors == []
      ensures State() == Site(None, None, false)
    {
      this.id := id;
      settlement := None;
      city := None;
      occupied := false;
      this.pathways := pathways;
      this.terrains := terrains;
      neighbors := [];
    }

    function State(): Site
      reads this
    {
      Site(settlement, city, occupied)
    }

    /** Appends a pathway; existing entries keep their places. */
    method AddPathway(p: PathId)
      modifies this`pathways
      ensures pathways == old(pathways) + [p]
    {
      pathways := pathways + [p];
    }

    /** Appends a terrain; existing entries keep their places. */
    method AddTerrain(t: TerrainId)
      modifies this`terrains
      ensures terrains == old(terrains) + [t]
    {
      terrains := terrains + [t];
    }

    /** Appends a neighbour; existing entries keep their places. */
    method SetNeighborNode(n: NodeId)
      modifies this`neighbors
      ensures neighbors == old(neighbors) + [n]
    {
      neighbors := neighbors + [n];
    }

    /** The i-th terrain; beyond the list there is none. */
    function TerrainAt(i: int): (r: Option<TerrainId>)
      reads this
      ensures r.Some? <==> 0 <= i < |terrains|
      ensures r.Some? ==> r.value == terrains[i] && r.value in terrains
    {
      if 0 <= i < |terrains| then Some(terrains[i]) else None
    }

    /** The i-th pathway; beyond the list there is none. */
    function PathwayAt(i: int): (r: Option<PathId>)
      reads this
      ensures r.Some? <==> 0 <= i < |pathways|
      ensures r.Some? ==> r.value == pathways[i] && r.value in pathways
    {
      if 0 <= i < |pathways| then Some(pathways[i]) else None
    }

    /** The neighbour at the given index, or none when the index is not below the count. */
    function NeighborAt(index: nat): (r: Option<NodeId>)
      reads this
      ensures r.Some? <==> index < |neighbors|
      ensures r.Some? ==> r.value == neighbors[index] && r.value in neighbors
    {
      if index < |neighbors| then Some(neighbors[index]) else None
    }

    /** Replaces whatever stands here by the Settlement s; the node becomes occupied. */
    method SetSettlement(s: Property)
      modifies this`settlement, this`city, this`occupied
      ensures State() == Site(Some(s), None, true)
    {
      settlement := Some(s);
      city := None;
      occupied := true;
    }

    /** Replaces whatever stands here by the City c; the node becomes occupied. */
    method SetCity(c: Property)
      modifies this`settlement, this`city, this`occupied
      ensures State() == Site(None, Some(c), true)
    {
      settlement := None;
      city := Some(c);
      occupied := true;
    }

    /** Sets only the flag, so a node may be occupied with nothing built on it. */
    method SetOccupied(b: bool)
      modifies this`occupied
      ensures State() == old(State()).(occupied := b)
    {
      occupied := b;
    }
  }

  class Pathway {
    const id: int
    const node1: NodeId
    const node2: NodeId
    var occupied: bool
    var owner: Option<PlayerId>
    /** Whether a road record has been stored on this pathway. */
    var hasPath: bool

    /** An unoccupied, ownerless pathway between n1 and n2; the ends never change. */
    constructor (id: int, n1: NodeId, n2: NodeId)
      ensures this.id == id && node1 == n1 && node2 == n2
      ensures State() == Road(false, None) && !hasPath
    {
      this.id := id;
      node1 := n1;
      node2 := n2;
      occupied := false;
      owner := None;
      hasPath := false;
    }

    function State(): Road
      reads this
    {
      Road(occupied, owner)
    }

    /** Stores a road record; the pathway becomes occupied and keeps its owner. */
    method SetPath()
      modifies this`hasPath, this`occupied
      ensures hasPath && State() == old(State()).(occupied := true)
    {
      hasPath := true;
      occupied := true;
    }

    /** Records the owner; reading it back gives p. */
    method SetPlayer(p: PlayerId)
      modifies this`owner
      ensures State() == old(State()).(owner := Some(p))
    {
      owner := Some(p);
    }

    /** Sets only the flag; reading it back gives b. */
    method SetOccupied(b: bool)
      modifies this`occupied
      ensures State() == old(State()).(occupied := b)
    {
      occupied := b;
    }
  }
}
