/**
 * Development cards: five kinds, each with a fixed supply count and a type
 * name. Count and name depend on the kind only; a card object adds nothing
 * but its identity, which is what a player's holdings are keyed by.
 */
module Development {
  import opened Outcomes

  datatype DevKind = Monopoly | VictoryPoint | YearOfPlenty | RoadBuilding | Knight

  const AllDevKinds: set<DevKind> := {Monopoly, VictoryPoint, YearOfPlenty, RoadBuilding, Knight}

  /** The kinds in the order the board seeds its deck. */
  const DeckOrder: seq<DevKind> := [Monopoly, VictoryPoint, YearOfPlenty, RoadBuilding, Knight]

  /** Supply of each kind in a freshly seeded deck; every kind is supplied. */
  function CardCount(k: DevKind): (n: int)
    ensures n > 0
  {
    match k
    case Monopoly => 100
    case VictoryPoint => 4
    case YearOfPlenty => 100
    case RoadBuilding => 100
    case Knight => 3
  }

  /**
   * The type name a card of kind k reports. Each of the strings the effect
   * dispatch compares against is the name of exactly one kind.
   */
  function CardType(k: DevKind): (name: string)
    ensures name == "Monopoly" <==> k == Monopoly
    ensures name == "Victory Point" <==> k == VictoryPoint
    ensures name == "Year of Plenty" <==> k == YearOfPlenty
    ensures name == "Road Building" <==> k == RoadBuilding
    ensures name == "Knight" <==> k == Knight
  {
    match k
    case Monopoly => "Monopoly"
    case VictoryPoint => "Victory Point"
    case YearOfPlenty => "Year of Plenty"
    case RoadBuilding => "Road Building"
    case Knight => "Knight"
  }

  /** The kind a type name stands for, if any: the inverse of CardType. */
  function ParseDevKind(name: string): (r: Option<DevKind>)
    ensures r.Some? ==> CardType(r.value) == name
    ensures r.None? ==> forall k: DevKind :: CardType(k) != name
  {
    if name == "Monopoly" then Some(Monopoly)
    else if name == "Victory Point" then Some(VictoryPoint)
    else if name == "Year of Plenty" then Some(YearOfPlenty)
    else if name == "Road Building" then Some(RoadBuilding)
    else if name == "Knight" then Some(Knight)
    else None
  }

  /** The type names tell the kinds apart, so dispatching on the name is dispatching on the kind. */
  lemma CardTypesDistinct(a: DevKind, b: DevKind)
    ensures CardType(a) == CardType(b) <==> a == b
    ensures ParseDevKind(CardType(a)) == Some(a)
  {
  }

  /** The supply counts: 100 Monopoly, 4 Victory Point, 100 Year of Plenty, 100 Road Building, 3 Knight. */
  lemma SupplyCounts()
    ensures CardCount(Monopoly) == 100 && CardCount(VictoryPoint) == 4
    ensures CardCount(YearOfPlenty) == 100 && CardCount(RoadBuilding) == 100
    ensures CardCount(Knight) == 3
    ensures forall k: DevKind :: CardCount(k) > 0
  {
  }

  /** Every kind occurs in DeckOrder exactly once. */
  lemma DeckOrderComplete()
    ensures forall k: DevKind :: k in DeckOrder && k in AllDevKinds
    ensures forall i, j | 0 <= i < j < |DeckOrder| :: DeckOrder[i] != DeckOrder[j]
  {
    forall k: DevKind ensures k in DeckOrder && k in AllDevKinds {
      match k
      case Monopoly => assert DeckOrder[0] == k;
      case VictoryPoint => assert DeckOrder[1] == k;
      case YearOfPlenty => assert DeckOrder[2] == k;
      case RoadBuilding => assert DeckOrder[3] == k;
      case Knight => assert DeckOrder[4] == k;
    }
  }

  /** One development card. Its identity is the object; its kind never changes. */
  class DevCard {
    const kind: DevKind

    constructor (k: DevKind)
      ensures kind == k
    {
      kind := k;
    }

    /** The supply of this card's kind: 4 Victory Point, 3 Knight and 100 of every other kind. */
    function GetCardCount(): (n: int)
      ensures n == 4 <==> kind == VictoryPoint
      ensures n == 3 <==> kind == Knight
      ensures n == 100 <==> kind != VictoryPoint && kind != Knight
    {
      CardCount(kind)
    }

    /** This card's type name, which parses back to its kind. */
    function TypeName(): (name: string)
      ensures ParseDevKind(name) == Some(kind)
    {
      CardType(kind)
    }

    /** A new card of the same kind, so with the same type name and count. */
    method CloneCard() returns (c: DevCard)
      ensures fresh(c)
      ensures c.kind == kind
      ensures c.TypeName() == TypeName() && c.GetCardCount() == GetCardCount()
    {
      c := new DevCard(kind);
    }
  }
}
