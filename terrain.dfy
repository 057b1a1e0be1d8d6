/**
 * A terrain hex: a resource name, a dice number, its six corner nodes and a
 * resource card created the first time it is asked for.
 */
module Terrains {
  import opened Outcomes
  import opened ResourceCards
  import opened Topology

  /**
   * The card the constructor creates: it recognises only the landscape words
   * forest, pasture, hill, mountain and field.
   */
  function ConstructorCard(landscape: string): (c: Option<ResourceCard>)
    ensures c.Some? <==> landscape in {"forest", "pasture", "hill", "mountain", "field"}
    ensures c.Some? ==> c.value.KindCard?
  {
    if landscape == "forest" then Some(KindCard(Lumber))
    else if landscape == "pasture" then Some(KindCard(Wool))
    else if landscape == "hill" then Some(KindCard(Brick))
    else if landscape == "mountain" then Some(KindCard(Ore))
    else if landscape == "field" then Some(KindCard(Grain))
    else None
  }

  /**
   * The card created on demand: it recognises the five resource names, and
   * the card's type is the name itself. Any other name, Desert included, gives none.
   */
  function NamedCard(name: string): (c: Option<ResourceCard>)
    ensures c.Some? <==> ParseResource(name).Some?
    ensures c.Some? ==> c.value.KindCard? && GetType(c.value) == name
  {
    match ParseResource(name)
    case Some(k) => Some(KindCard(k))
    case None => None
  }

  /**
   * Terrains named by resource, as the board names them, get no card from
   * the constructor; on demand every one but the Desert gets the card of its kind.
   */
  lemma BoardTerrainCards(t: TerrainId)
    ensures ConstructorCard(TerrainName(t)) == None
    ensures NamedCard(TerrainName(t)) == (if TerrainKind(t).Some? then Some(KindCard(TerrainKind(t).value)) else None)
    ensures t == DesertId <==> NamedCard(TerrainName(t)) == None
  {
  }

  class Terrain {
    const id: int
    const resource: string
    /** Not set by the constructor; meaningful once SetTerrainNum has been called. */
    var terrainNum: int
    var card: Option<ResourceCard>
    var nodes: seq<NodeId>

    /** The card, once it exists, is the one the resource name calls for. */
    ghost predicate CardMatches()
      reads this
    {
      card.None? || card == NamedCard(resource)
    }

    constructor (resource: string, id: int)
      ensures this.resource == resource && this.id == id
      ensures card == ConstructorCard(resource) && nodes == []
    {
      this.resource := resource;
      this.id := id;
      card := ConstructorCard(resource);
      nodes := [];
    }

    /**
     * The card, created from the resource name if there is none yet. A card
     * that exists is returned unchanged, so repeated calls give the same card.
     */
    method GetCard() returns (c: Option<ResourceCard>)
      modifies this`card
      ensures old(card).Some? ==> c == old(card)
      ensures old(card).None? ==> c == NamedCard(resource)
      ensures card == c
      ensures old(CardMatches()) ==> c == NamedCard(resource)
    {
      if card.Some? {
        return card;
      }
      card := NamedCard(resource);
      c := card;
    }

    /** Sets the dice number; reading it back gives n. */
    method SetTerrainNum(n: int)
      modifies this`terrainNum
      ensures terrainNum == n
    {
      terrainNum := n;
    }

    /** Replaces the node list; reading it back gives ns. */
    method SetNodes(ns: seq<NodeId>)
      modifies this`nodes
      ensures nodes == ns
    {
      nodes := ns;
    }
  }
}
