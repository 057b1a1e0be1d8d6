/**
 * The game board: the 54 nodes, 72 pathways and 19 terrains wired as the
 * topology tables say, and the shared deck of development cards.
 */
module Board {
  import opened Outcomes
  import opened ResourceCards
  import opened Development
  import opened Topology
  import opened Nodes
  import opened Terrains

  /**
   * A node object carries the id and incidence lists of table entry id.
   * Only the lists are read, so changing what stands on a node keeps this.
   */
  ghost predicate NodeWired(n: Node, id: NodeId)
    reads n`pathways, n`terrains, n`neighbors
  {
    n.id == id && n.pathways == NodePathways(id) && n.terrains == NodeTerrains(id) && n.neighbors == Neighbors(id)
  }

  /** A pathway object carries the id and endpoints of table entry id (its ends never change). */
  ghost predicate PathwayWired(p: Pathway, id: PathId)
  {
    p.id == id && (p.node1, p.node2) == PathEnds(id)
  }

  /** A terrain object carries the id, name, number and nodes of table entry id. */
  ghost predicate TerrainWired(t: Terrain, id: TerrainId)
    reads t`terrainNum, t`nodes
  {
    t.id == id && t.resource == TerrainName(id) && t.terrainNum == TerrainNumber(id) && t.nodes == TerrainNodes(id)
  }

  /** Every kind has an entry, and no count is negative. */
  predicate DeckValid(deck: map<DevKind, int>)
  {
    forall k: DevKind :: k in deck && deck[k] >= 0
  }

  /** The deck as the board seeds it: each kind at its supply count. */
  function SeededDeck(): (d: map<DevKind, int>)
    ensures DeckValid(d)
    ensures forall k: DevKind :: d[k] == CardCount(k)
  {
    DeckOrderComplete();
    map k: DevKind | k in AllDevKinds :: CardCount(k)
  }

  /** The kinds with cards left, in deck order. */
  method AvailableKinds(deck: map<DevKind, int>) returns (available: seq<DevKind>)
    requires DeckValid(deck)
    ensures forall k: DevKind :: k in available <==> deck[k] > 0
  {
    DeckOrderComplete();
    available := [];
    for i := 0 to |DeckOrder|
      invariant forall k: DevKind :: k in available <==> k in DeckOrder[..i] && deck[k] > 0
    {
      if deck[DeckOrder[i]] > 0 {
        available := available + [DeckOrder[i]];
      }
    }
    assert DeckOrder[..|DeckOrder|] == DeckOrder;
  }

  /** Node i with the incidence lists of the tables, then its neighbours appended in table order. */
  method MakeNode(i: NodeId) returns (n: Node)
    ensures fresh(n) && NodeWired(n, i) && n.State() == Site(None, None, false)
  {
    n := new Node(i, NodePathways(i), NodeTerrains(i));
    var around := Neighbors(i);
    for j := 0 to |around|
      invariant n.neighbors == around[..j] && n.id == i
      invariant n.pathways == NodePathways(i) && n.terrains == NodeTerrains(i)
      invariant n.State() == Site(None, None, false)
    {
      n.SetNeighborNode(around[j]);
    }
  }

  /** The 54 nodes, in id order. */
  method BuildNodes() returns (ns: seq<Node>)
    ensures |ns| == 54
    ensures forall j | 0 <= j < 54 :: fresh(ns[j]) && NodeWired(ns[j], j + 1)
    ensures forall j | 0 <= j < 54 :: ns[j].State() == Site(None, None, false)
  {
    ns := [];
    for i := 1 to 55
      invariant |ns| == i - 1
      invariant forall j | 0 <= j < |ns| :: fresh(ns[j]) && NodeWired(ns[j], j + 1)
      invariant forall j | 0 <= j < |ns| :: ns[j].State() == Site(None, None, false)
    {
      var n := MakeNode(i);
      ns := ns + [n];
    }
  }

  /** The 72 pathways, in id order, each between its table endpoints. */
  method BuildPathways() returns (ps: seq<Pathway>)
    ensures |ps| == 72
    ensures forall j | 0 <= j < 72 :: fresh(ps[j]) && PathwayWired(ps[j], j + 1)
    ensures forall j | 0 <= j < 72 :: ps[j].State() == Road(false, None)
  {
    ps := [];
    for i := 1 to 73
      invariant |ps| == i - 1
      invariant forall j | 0 <= j < |ps| :: fresh(ps[j]) && PathwayWired(ps[j], j + 1)
      invariant forall j | 0 <= j < |ps| :: ps[j].State() == Road(false, None)
    {
      var ends := PathEnds(i);
      var p := new Pathway(i, ends.0, ends.1);
      ps := ps + [p];
    }
  }

  /** Terrain i with its table name, then its number and its nodes set. */
  method MakeTerrain(i: TerrainId) returns (t: Terrain)
    ensures fresh(t) && TerrainWired(t, i) && t.card == None
  {
    t := new Terrain(TerrainName(i), i);
    BoardTerrainCards(i);
    t.SetTerrainNum(TerrainNumber(i));
    t.SetNodes(TerrainNodes(i));
  }

  /** The 19 terrains, in id order. */
  method BuildTerrains() returns (ts: seq<Terrain>)
    ensures |ts| == 19
    ensures forall j | 0 <= j < 19 :: fresh(ts[j]) && TerrainWired(ts[j], j + 1) && ts[j].card == None
  {
    ts := [];
    for i := 1 to 20
      invariant |ts| == i - 1
      invariant forall j | 0 <= j < |ts| :: fresh(ts[j]) && TerrainWired(ts[j], j + 1) && ts[j].card == None
    {
      var t := MakeTerrain(i);
      ts := ts + [t];
    }
  }

  class GameBoard {
    const nodes: seq<Node>
    const pathways: seq<Pathway>
    const terrains: seq<Terrain>
    var deck: map<DevKind, int>

    /** The node at position i is node i + 1 of the tables. */
    ghost predicate NodeInPlace(i: int)
      reads nodes`pathways, nodes`terrains, nodes`neighbors
    {
      |nodes| == 54 && 0 <= i < 54 && NodeWired(nodes[i], i + 1)
    }

    /** The pathway at position i is pathway i + 1 of the tables. */
    ghost predicate PathwayInPlace(i: int)
    {
      |pathways| == 72 && 0 <= i < 72 && PathwayWired(pathways[i], i + 1)
    }

    /** The terrain at position i is terrain i + 1 of the tables. */
    ghost predicate TerrainInPlace(i: int)
      reads terrains`terrainNum, terrains`nodes
    {
      |terrains| == 19 && 0 <= i < 19 && TerrainWired(terrains[i], i + 1)
    }

    /** There are 54 nodes, 72 pathways and 19 terrains, each at the position of its id. */
    predicate Indexed()
    {
      |nodes| == 54 && |pathways| == 72 && |terrains| == 19
      && (forall i | 0 <= i < 54 :: nodes[i].id == i + 1)
      && (forall i | 0 <= i < 72 :: pathways[i].id == i + 1)
      && (forall i | 0 <= i < 19 :: terrains[i].id == i + 1)
    }

    /** Every object sits at the position of its id and is wired as the tables say. */
    ghost predicate Wired()
      reads nodes`pathways, nodes`terrains, nodes`neighbors, terrains`terrainNum, terrains`nodes
    {
      Indexed()
      && (forall i | 0 <= i < 54 :: NodeInPlace(i))
      && (forall i | 0 <= i < 72 :: PathwayInPlace(i))
      && (forall i | 0 <= i < 19 :: TerrainInPlace(i))
    }

    /** Every site is valid. */
    ghost predicate SitesSound()
      reads nodes
    {
      forall i | 0 <= i < |nodes| :: SiteValid(nodes[i].State())
    }

    /** Every road is valid. */
    ghost predicate RoadsSound()
      reads pathways
    {
      forall i | 0 <= i < |pathways| :: RoadValid(pathways[i].State())
    }

    /** Every terrain's card, once it exists, fits its name. */
    ghost predicate CardsSound()
      reads terrains
    {
      forall i | 0 <= i < |terrains| :: terrains[i].CardMatches()
    }

    /**
     * The board is wired as the tables say, every site and road is valid,
     * every terrain's card fits its name, and the deck is well formed.
     */
    ghost predicate Valid()
      reads this, nodes, pathways, terrains
    {
      Wired() && SitesSound() && RoadsSound() && CardsSound() && DeckValid(deck)
    }

    /** What every node holds, by position (node id minus one). */
    ghost function Sites(): seq<Site>
      reads nodes
    {
      seq(|nodes|, i requires 0 <= i < |nodes| reads nodes => nodes[i].State())
    }

    /** What every pathway holds, by position (pathway id minus one). */
    ghost function Roads(): seq<Road>
      reads pathways
    {
      seq(|pathways|, i requires 0 <= i < |pathways| reads pathways => pathways[i].State())
    }

    /** Which pathways carry a road record, by position (pathway id minus one). */
    ghost function RoadRecords(): seq<bool>
      reads pathways
    {
      seq(|pathways|, i requires 0 <= i < |pathways| reads pathways => pathways[i].hasPath)
    }

    /** Builds every node, pathway and terrain from the tables, and seeds the deck. */
    constructor ()
      ensures Valid()
      ensures forall i | 0 <= i < 54 :: fresh(nodes[i]) && nodes[i].State() == Site(None, None, false)
      ensures forall i | 0 <= i < 72 :: fresh(pathways[i]) && pathways[i].State() == Road(false, None)
      ensures forall i | 0 <= i < 19 :: fresh(terrains[i]) && terrains[i].card == None
      ensures deck == SeededDeck()
    {
      var ns := BuildNodes();
      var ps := BuildPathways();
      var ts := BuildTerrains();
      nodes := ns;
      pathways := ps;
      terrains := ts;
      deck := SeededDeck();
    }

    /** The node with the given id, or none when the id is not in [1, 54]. */
    function LocateNode(index: int): (r: Option<Node>)
      requires Indexed()
      ensures r.Some? <==> 1 <= index <= 54
      ensures r.Some? ==> r.value == nodes[index - 1] && r.value.id == index
    {
      if 0 < index <= 54 then Some(nodes[index - 1]) else None
    }

    /** The pathway with the given id; there is no bounds check, so the id must be in [1, 72]. */
    function LocatePathway(index: int): (r: Pathway)
      requires Indexed() && 1 <= index <= 72
      ensures r == pathways[index - 1] && r.id == index
    {
      pathways[index - 1]
    }

    /** The terrain at the given 0-based position; there is no bounds check, so it must be in [0, 19). */
    function LocateTerrain(index: int): (r: Terrain)
      requires Indexed() && 0 <= index < 19
      ensures r == terrains[index] && r.id == index + 1
    {
      terrains[index]
    }

    /**
     * Draws from the deck: absent, with the deck unchanged, when every count
     * is zero; otherwise one kind with a positive count loses one card and a
     * new card of that kind is returned.
     */
    method DrawRandomDevCard() returns (c: DevCard?)
      requires Valid()
      modifies this`deck
      ensures Valid()
      ensures c == null <==> forall k: DevKind :: old(deck)[k] == 0
      ensures c == null ==> deck == old(deck)
      ensures c != null ==> fresh(c) && old(deck)[c.kind] > 0
      ensures c != null ==> deck == old(deck)[c.kind := old(deck)[c.kind] - 1]
    {
      var available := AvailableKinds(deck);
      if available == [] {
        return null;
      }
      var index :| 0 <= index < |available|;
      var selected := available[index];
      var drawn := new DevCard(selected);
      c := drawn.CloneCard();
      TakeFromDeck(selected);
    }

    /** One card of kind k leaves the deck. */
    method TakeFromDeck(k: DevKind)
      requires Valid() && deck[k] > 0
      modifies this`deck
      ensures Valid() && deck == old(deck)[k := old(deck)[k] - 1]
    {
      deck := deck[k := deck[k] - 1];
    }

    /**
     * The board stays valid when, of everything on it, only what stands on
     * node i changed, to a valid site; of all sites only the i-th is new.
     */
    twostate lemma SiteChanged(i: nat)
      requires old(Valid()) && i < 54 && Wired()
      requires unchanged(this) && unchanged(pathways) && unchanged(terrains)
      requires forall n: Node | n in nodes && n != nodes[i] :: unchanged(n)
      requires SiteValid(nodes[i].State())
      ensures Valid()
      ensures Sites() == old(Sites())[i := nodes[i].State()] && Roads() == old(Roads())
    {
      forall j | 0 <= j < 54 && j != i
        ensures nodes[j].State() == old(nodes[j].State())
      {
        assert nodes[j] in nodes && nodes[j].id != nodes[i].id;
      }
    }

    /** The board stays valid when only pathway i changed, to a valid road; of all roads only the i-th is new. */
    twostate lemma RoadChanged(i: nat)
      requires old(Valid()) && i < 72 && Wired()
      requires unchanged(this) && unchanged(nodes) && unchanged(terrains)
      requires forall p: Pathway | p in pathways && p != pathways[i] :: unchanged(p)
      requires RoadValid(pathways[i].State())
      ensures Valid()
      ensures Roads() == old(Roads())[i := pathways[i].State()] && Sites() == old(Sites())
      ensures RoadRecords() == old(RoadRecords())[i := pathways[i].hasPath]
    {
      forall j | 0 <= j < 72 && j != i
        ensures pathways[j].State() == old(pathways[j].State()) && pathways[j].hasPath == old(pathways[j].hasPath)
      {
        assert pathways[j] in pathways && pathways[j].id != pathways[i].id;
      }
    }

    /** The board stays valid when only terrain i changed and its card still fits its name. */
    twostate lemma TerrainChanged(i: nat)
      requires old(Valid()) && i < 19 && Wired()
      requires unchanged(this) && unchanged(nodes) && unchanged(pathways)
      requires forall t: Terrain | t in terrains && t != terrains[i] :: unchanged(t)
      requires terrains[i].CardMatches()
      ensures Valid()
      ensures Sites() == old(Sites()) && Roads() == old(Roads())
    {
      forall j | 0 <= j < 19 && j != i
        ensures terrains[j].CardMatches()
      {
        assert terrains[j] in terrains && terrains[j].id != terrains[i].id;
      }
    }
  }

  /** A freshly seeded deck has a card of every kind. */
  lemma SeededDeckNotEmpty()
    ensures forall k: DevKind :: SeededDeck()[k] > 0
    ensures exists k: DevKind :: SeededDeck()[k] > 0
  {
    SupplyCounts();
    assert SeededDeck()[Knight] > 0;
  }
}
