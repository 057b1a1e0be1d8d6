/**
 * The five resource kinds and the resource-card type tag.
 *
 * A resource card is an immutable tag naming one kind; a player's ledger,
 * not the card, is what stores amounts. Kinds are declared in alphabetical
 * order, which is the order in which a ledger keyed by the kinds' names is
 * walked.
 */
module ResourceCards {
  import opened Outcomes

  datatype Resource = Brick | Grain | Lumber | Ore | Wool

  /** The ledger's keys in iteration (alphabetical) order. */
  const LedgerOrder: seq<Resource> := [Brick, Grain, Lumber, Ore, Wool]

  /** The type name a card of kind k reports, which is also k's ledger key. */
  function ResourceName(k: Resource): string
  {
    match k
    case Brick => "Brick"
    case Grain => "Grain"
    case Lumber => "Lumber"
    case Ore => "Ore"
    case Wool => "Wool"
  }

  /** A card made by the default constructor, or one of the five kind cards. */
  datatype ResourceCard = UnknownCard | KindCard(kind: Resource)

  /** The card's type name. */
  function GetType(c: ResourceCard): (name: string)
    ensures c.UnknownCard? ==> name == "Unknown"
    ensures c.KindCard? ==> name == ResourceName(c.kind)
  {
    match c
    case UnknownCard => "Unknown"
    case KindCard(k) => ResourceName(k)
  }

  /** The ledger key a name stands for, if any: the inverse of ResourceName. */
  function ParseResource(name: string): (r: Option<Resource>)
    ensures r.Some? ==> ResourceName(r.value) == name
    ensures r.None? ==> forall k: Resource :: ResourceName(k) != name
  {
    if name == "Brick" then Some(Brick)
    else if name == "Grain" then Some(Grain)
    else if name == "Lumber" then Some(Lumber)
    else if name == "Ore" then Some(Ore)
    else if name == "Wool" then Some(Wool)
    else None
  }

  /** Strict lexicographic order on strings, as std::string compares them. */
  predicate LexLess(a: string, b: string)
  {
    if |a| == 0 then |b| > 0
    else if |b| == 0 then false
    else if a[0] != b[0] then a[0] < b[0]
    else LexLess(a[1..], b[1..])
  }

  /** Every kind occurs exactly once in LedgerOrder, and the names ascend. */
  lemma LedgerOrderIsMapOrder()
    ensures forall k: Resource :: k in LedgerOrder
    ensures forall i, j | 0 <= i < j < |LedgerOrder| :: LedgerOrder[i] != LedgerOrder[j]
    ensures forall i, j | 0 <= i < j < |LedgerOrder| ::
              LexLess(ResourceName(LedgerOrder[i]), ResourceName(LedgerOrder[j]))
  {
    forall k: Resource ensures k in LedgerOrder {
      match k
      case Brick => assert LedgerOrder[0] == k;
      case Grain => assert LedgerOrder[1] == k;
      case Lumber => assert LedgerOrder[2] == k;
      case Ore => assert LedgerOrder[3] == k;
      case Wool => assert LedgerOrder[4] == k;
    }
  }

  /** Distinct kinds have distinct names, and none is called "Unknown". */
  lemma ResourceNamesDistinct(a: Resource, b: Resource)
    ensures ResourceName(a) == ResourceName(b) <==> a == b
    ensures ResourceName(a) != "Unknown"
  {
  }

  /** A kind card's type name is exactly its kind's ledger key. */
  lemma CardTypeIsLedgerKey(c: ResourceCard)
    ensures c.KindCard? ==> ParseResource(GetType(c)) == Some(c.kind)
    ensures c.UnknownCard? ==> ParseResource(GetType(c)) == None
  {
  }
}
