/**
 * The rules a player's actions follow, stated on values: the resource
 * ledger, costs, the outcome each action reports for a given state, what a
 * dice roll or an initial settlement pays out, how cards are discarded, how a
 * trade moves resources, and which kinds the two resource-choosing cards pick.
 * The player's methods are proved to behave exactly as these say.
 */
module Rules {
  import opened Outcomes
  import opened ResourceCards
  import opened Topology
  import opened Property
  import opened Nodes
  import opened Development

  /** How an action that returns nothing ends. */
  type Status = Outcome<()>

  /** The largest value of the source's `int`, the starting minimum when choosing a kind. */
  const IntMax: int := 2147483647

  /**
   * A count for each of the five kinds: the player's name-keyed map, which
   * starts with exactly these five keys. A key for any other name (which a
   * trade or card naming it would insert) is not modelled. Counts may be
   * negative (a trade can take a ledger below zero).
   */
  datatype Ledger = Ledger(brick: int, grain: int, lumber: int, ore: int, wool: int)
  {
    /** The count of kind k. */
    function At(k: Resource): int
    {
      match k
      case Brick => brick
      case Grain => grain
      case Lumber => lumber
      case Ore => ore
      case Wool => wool
    }
  }

  /** A new player's ledger: every kind at zero. */
  function ZeroLedger(): (l: Ledger)
    ensures forall k: Resource :: l.At(k) == 0
  {
    Ledger(0, 0, 0, 0, 0)
  }

  function Total(l: Ledger): int
  {
    l.At(Brick) + l.At(Grain) + l.At(Lumber) + l.At(Ore) + l.At(Wool)
  }

  /** The sum of the counts of the listed kinds. */
  function SumOf(l: Ledger, ks: seq<Resource>): int
    decreases |ks|
  {
    if ks == [] then 0 else SumOf(l, ks[..|ks| - 1]) + l.At(ks[|ks| - 1])
  }

  /** Walking the ledger in its order and adding up gives the total. */
  lemma SumOfLedgerOrder(l: Ledger)
    ensures SumOf(l, LedgerOrder) == Total(l)
  {
    assert [Brick][..0] == [];
    assert [Brick, Grain][..1] == [Brick];
    assert [Brick, Grain, Lumber][..2] == [Brick, Grain];
    assert [Brick, Grain, Lumber, Ore][..3] == [Brick, Grain, Lumber];
    assert LedgerOrder[..4] == [Brick, Grain, Lumber, Ore];
  }

  /** Adds n to kind k and leaves every other kind alone. */
  function Credit(l: Ledger, k: Resource, n: int): (r: Ledger)
    ensures forall j: Resource :: r.At(j) == l.At(j) + (if j == k then n else 0)
  {
    match k
    case Brick => l.(brick := l.brick + n)
    case Grain => l.(grain := l.grain + n)
    case Lumber => l.(lumber := l.lumber + n)
    case Ore => l.(ore := l.ore + n)
    case Wool => l.(wool := l.wool + n)
  }

  /** A credit of n changes the total by n. */
  lemma CreditTotal(l: Ledger, k: Resource, n: int)
    ensures Total(Credit(l, k, n)) == Total(l) + n
  {
  }

  /** Two credits of one kind are one credit of their sum. */
  lemma CreditTwice(l: Ledger, k: Resource, a: int, b: int, mid: Ledger, now: Ledger)
    requires mid == Credit(l, k, a) && now == Credit(mid, k, b)
    ensures now == Credit(l, k, a + b)
  {
  }

  /** A cost or a bundle: the given count for each kind. */
  function Bundle(brick: int, grain: int, lumber: int, ore: int, wool: int): (b: Ledger)
    ensures b.At(Brick) == brick && b.At(Grain) == grain && b.At(Lumber) == lumber && b.At(Ore) == ore && b.At(Wool) == wool
  {
    Ledger(brick, grain, lumber, ore, wool)
  }

  /** One Lumber, Brick, Grain and Wool. */
  function SettlementCost(): Ledger { Bundle(1, 1, 1, 0, 1) }

  /** One Lumber and one Brick. */
  function PathwayCost(): Ledger { Bundle(1, 0, 1, 0, 0) }

  /** Two Grain and three Ore. */
  function CityCost(): Ledger { Bundle(0, 2, 0, 3, 0) }

  /** One Grain, Ore and Wool. */
  function DevelopmentCost(): Ledger { Bundle(0, 1, 0, 1, 1) }

  /** The ledger holds at least the cost of every kind the cost asks for. */
  predicate Affords(l: Ledger, cost: Ledger)
  {
    forall k: Resource :: cost.At(k) > 0 ==> l.At(k) >= cost.At(k)
  }

  /** The cost taken off, kind by kind. */
  function Pay(l: Ledger, cost: Ledger): (r: Ledger)
    ensures forall k: Resource :: r.At(k) == l.At(k) - cost.At(k)
  {
    Ledger(l.brick - cost.brick, l.grain - cost.grain, l.lumber - cost.lumber, l.ore - cost.ore, l.wool - cost.wool)
  }

  /** Building a Settlement tests Lumber, Brick, Grain and Wool for one each, and paying takes four cards. */
  lemma SettlementCostAsChecked(l: Ledger)
    ensures Affords(l, SettlementCost()) <==> l.At(Lumber) >= 1 && l.At(Brick) >= 1 && l.At(Grain) >= 1 && l.At(Wool) >= 1
    ensures Total(Pay(l, SettlementCost())) == Total(l) - 4
  {
    var c := SettlementCost();
    if l.At(Lumber) >= 1 && l.At(Brick) >= 1 && l.At(Grain) >= 1 && l.At(Wool) >= 1 {
      forall k: Resource | c.At(k) > 0 ensures l.At(k) >= c.At(k) { match k case _ => }
    }
  }

  /** Building a road tests Lumber and Brick for one each, and paying takes two cards. */
  lemma PathwayCostAsChecked(l: Ledger)
    ensures Affords(l, PathwayCost()) <==> l.At(Lumber) >= 1 && l.At(Brick) >= 1
    ensures Total(Pay(l, PathwayCost())) == Total(l) - 2
  {
    var c := PathwayCost();
    if l.At(Lumber) >= 1 && l.At(Brick) >= 1 {
      forall k: Resource | c.At(k) > 0 ensures l.At(k) >= c.At(k) { match k case _ => }
    }
  }

  /** Upgrading tests for two Grain and three Ore, and paying takes five cards. */
  lemma CityCostAsChecked(l: Ledger)
    ensures Affords(l, CityCost()) <==> l.At(Grain) >= 2 && l.At(Ore) >= 3
    ensures Total(Pay(l, CityCost())) == Total(l) - 5
  {
    var c := CityCost();
    if l.At(Grain) >= 2 && l.At(Ore) >= 3 {
      forall k: Resource | c.At(k) > 0 ensures l.At(k) >= c.At(k) { match k case _ => }
    }
  }

  /** Buying a development card tests Grain, Ore and Wool for one each, and paying takes three cards. */
  lemma DevelopmentCostAsChecked(l: Ledger)
    ensures Affords(l, DevelopmentCost()) <==> l.At(Grain) >= 1 && l.At(Ore) >= 1 && l.At(Wool) >= 1
    ensures Total(Pay(l, DevelopmentCost())) == Total(l) - 3
  {
    var c := DevelopmentCost();
    if l.At(Grain) >= 1 && l.At(Ore) >= 1 && l.At(Wool) >= 1 {
      forall k: Resource | c.At(k) > 0 ensures l.At(k) >= c.At(k) { match k case _ => }
    }
  }

  // ---------------------------------------------------------------------
  // Resource names

  /** "BrickCard" and the like become the plain kind name; any other name is returned as it is. */
  function SimplifyResourceName(name: string): (r: string)
    ensures r != name ==> ParseResource(r).Some? && name == r + "Card"
    ensures ParseResource(name).Some? ==> r == name
  {
    if name == "BrickCard" then "Brick"
    else if name == "LumberCard" then "Lumber"
    else if name == "GrainCard" then "Grain"
    else if name == "WoolCard" then "Wool"
    else if name == "OreCard" then "Ore"
    else name
  }

  /** Simplifying twice is simplifying once, and each card name maps to its kind's key. */
  lemma SimplifyIdempotent(name: string, k: Resource)
    ensures SimplifyResourceName(SimplifyResourceName(name)) == SimplifyResourceName(name)
    ensures SimplifyResourceName(ResourceName(k) + "Card") == ResourceName(k)
    ensures SimplifyResourceName(ResourceName(k)) == ResourceName(k)
  {
    var r := SimplifyResourceName(name);
    if r != name {
      assert ParseResource(r).Some?;
    }
    match k
    case Brick => assert ResourceName(k) + "Card" == "BrickCard";
    case Grain => assert ResourceName(k) + "Card" == "GrainCard";
    case Lumber => assert ResourceName(k) + "Card" == "LumberCard";
    case Ore => assert ResourceName(k) + "Card" == "OreCard";
    case Wool => assert ResourceName(k) + "Card" == "WoolCard";
  }

  // ---------------------------------------------------------------------
  // Choosing kinds by count

  /** The position of a kind in ledger order. */
  function LedgerIndex(k: Resource): (i: nat)
    ensures i < |LedgerOrder| && LedgerOrder[i] == k
  {
    match k
    case Brick => 0
    case Grain => 1
    case Lumber => 2
    case Ore => 3
    case Wool => 4
  }

  /** a's ledger key sorts before b's. */
  predicate Before(a: Resource, b: Resource)
  {
    LexLess(ResourceName(a), ResourceName(b))
  }

  /** Alphabetical order of the keys is ledger order. */
  lemma BeforeIsLedgerOrder(a: Resource, b: Resource)
    ensures Before(a, b) <==> LedgerIndex(a) < LedgerIndex(b)
  {
    match a {
      case Brick => match b { case Brick => case Grain => case Lumber => case Ore => case Wool => }
      case Grain => match b { case Brick => case Grain => case Lumber => case Ore => case Wool => }
      case Lumber => match b { case Brick => case Grain => case Lumber => case Ore => case Wool => }
      case Ore => match b { case Brick => case Grain => case Lumber => case Ore => case Wool => }
      case Wool => match b { case Brick => case Grain => case Lumber => case Ore => case Wool => }
    }
  }

  /** k has the smallest count, and no kind with that count sorts before it. */
  predicate LeastHeld(l: Ledger, k: Resource)
  {
    (forall j: Resource :: l.At(k) <= l.At(j))
    && (forall j: Resource :: l.At(j) == l.At(k) ==> !Before(j, k))
  }

  /** k1 is least held, and k2 is least held among the other four, ties going alphabetically. */
  predicate TwoLeastHeld(l: Ledger, k1: Resource, k2: Resource)
  {
    k1 != k2 && LeastHeld(l, k1)
    && (forall j: Resource :: j != k1 ==> l.At(k2) <= l.At(j))
    && (forall j: Resource :: j != k1 && l.At(j) == l.At(k2) ==> !Before(j, k2))
  }

  /** The least-held kind is determined by the ledger. */
  lemma LeastHeldUnique(l: Ledger, a: Resource, b: Resource)
    requires LeastHeld(l, a) && LeastHeld(l, b)
    ensures a == b
  {
    BeforeIsLedgerOrder(a, b);
    BeforeIsLedgerOrder(b, a);
    assert LedgerOrder[LedgerIndex(a)] == a && LedgerOrder[LedgerIndex(b)] == b;
  }

  /**
   * The kind a Monopoly card takes: walking the ledger in order, the first
   * count strictly below the minimum so far replaces it.
   */
  method LeastHeldKind(l: Ledger) returns (k: Resource)
    requires forall j: Resource :: l.At(j) < IntMax
    ensures LeastHeld(l, k)
  {
    var minQuantity := IntMax;
    var best := 0;
    for i := 0 to |LedgerOrder|
      invariant i == 0 ==> minQuantity == IntMax
      invariant i > 0 ==> best < i && minQuantity == l.At(LedgerOrder[best])
      invariant forall j | 0 <= j < i :: minQuantity <= l.At(LedgerOrder[j]) && (j < best ==> minQuantity < l.At(LedgerOrder[j]))
    {
      if l.At(LedgerOrder[i]) < minQuantity {
        minQuantity := l.At(LedgerOrder[i]);
        best := i;
      }
    }
    k := LedgerOrder[best];
    forall j: Resource ensures l.At(k) <= l.At(j) && (l.At(j) == l.At(k) ==> !Before(j, k)) {
      BeforeIsLedgerOrder(j, k);
      assert LedgerOrder[LedgerIndex(j)] == j;
      LedgerOrderIsMapOrder();
    }
  }

  /**
   * The two kinds a Year of Plenty card grants: one walk in ledger order
   * keeping the smallest and second-smallest counts seen so far.
   */
  method TwoLeastHeldKinds(l: Ledger) returns (k1: Resource, k2: Resource)
    requires forall j: Resource :: l.At(j) < IntMax
    ensures TwoLeastHeld(l, k1, k2)
  {
    var minValue1, minValue2 := IntMax, IntMax;
    var b1, b2 := 0, 0;
    for i := 0 to |LedgerOrder|
      invariant i == 0 ==> minValue1 == IntMax
      invariant i > 0 ==> b1 < i && minValue1 == l.At(LedgerOrder[b1])
      invariant forall j | 0 <= j < i :: minValue1 <= l.At(LedgerOrder[j]) && (j < b1 ==> minValue1 < l.At(LedgerOrder[j]))
      invariant i < 2 ==> minValue2 == IntMax
      invariant i >= 2 ==> b2 < i && b2 != b1 && minValue2 == l.At(LedgerOrder[b2])
      invariant forall j | 0 <= j < i && j != b1 :: minValue2 <= l.At(LedgerOrder[j]) && (j < b2 ==> minValue2 < l.At(LedgerOrder[j]))
    {
      var count := l.At(LedgerOrder[i]);
      if count < minValue1 {
        minValue2, b2 := minValue1, b1;
        minValue1, b1 := count, i;
      } else if count < minValue2 {
        minValue2, b2 := count, i;
      }
    }
    LedgerOrderIsMapOrder();
    k1, k2 := LedgerOrder[b1], LedgerOrder[b2];
    forall j: Resource
      ensures l.At(k1) <= l.At(j) && (l.At(j) == l.At(k1) ==> !Before(j, k1))
      ensures j != k1 ==> l.At(k2) <= l.At(j) && (l.At(j) == l.At(k2) ==> !Before(j, k2))
    {
      BeforeIsLedgerOrder(j, k1);
      BeforeIsLedgerOrder(j, k2);
      assert LedgerOrder[LedgerIndex(j)] == j;
    }
  }

  // ---------------------------------------------------------------------
  // Discarding on a seven

  /**
   * What halving a hand does: with more than seven cards in all, the total
   * becomes half of it (rounded down) and no count rises or is left below
   * zero by the discarding; with seven or fewer nothing changes.
   */
  predicate Halved(before: Ledger, after: Ledger)
  {
    if Total(before) > 7 then
      Total(after) == Total(before) / 2
      && forall k: Resource :: after.At(k) <= before.At(k) && (0 <= after.At(k) || after.At(k) == before.At(k))
    else after == before
  }

  /** No kind is listed twice. */
  predicate Distinct(ks: seq<Resource>)
  {
    forall a, b | 0 <= a < b < |ks| :: ks[a] != ks[b]
  }

  /** Removing one entry of a list without repeats removes exactly that kind. */
  lemma RemoveAt(ks: seq<Resource>, i: nat)
    requires Distinct(ks) && i < |ks|
    ensures var rest := ks[..i] + ks[i + 1..];
            Distinct(rest) && forall k: Resource :: k in rest <==> k in ks && k != ks[i]
  {
    var rest := ks[..i] + ks[i + 1..];
    forall k: Resource ensures k in rest <==> k in ks && k != ks[i] {
      if k in rest {
        var j :| 0 <= j < |rest| && rest[j] == k;
        assert k == (if j < i then ks[j] else ks[j + 1]);
      }
      if k in ks && k != ks[i] {
        var j :| 0 <= j < |ks| && ks[j] == k;
        assert rest[if j < i then j else j - 1] == k;
      }
    }
    forall a, b | 0 <= a < b < |rest| ensures rest[a] != rest[b] {
      assert rest[a] == ks[if a < i then a else a + 1];
      assert rest[b] == ks[if b < i then b else b + 1];
    }
  }

  /** Adds up the hand, walking the ledger in order. */
  method CountCards(cards: Ledger) returns (total: int)
    ensures total == Total(cards)
  {
    total := 0;
    for i := 0 to |LedgerOrder|
      invariant total == SumOf(cards, LedgerOrder[..i])
    {
      assert LedgerOrder[..i + 1][..i] == LedgerOrder[..i];
      total := total + cards.At(LedgerOrder[i]);
    }
    assert LedgerOrder[..|LedgerOrder|] == LedgerOrder;
    SumOfLedgerOrder(cards);
  }

  /** The kinds with at least one card, each listed once, in ledger order. */
  method KindsHeld(cards: Ledger) returns (ks: seq<Resource>)
    ensures Distinct(ks)
    ensures forall k: Resource :: k in ks <==> cards.At(k) > 0
  {
    LedgerOrderIsMapOrder();
    ks := [];
    for i := 0 to |LedgerOrder|
      invariant forall k: Resource :: k in ks <==> k in LedgerOrder[..i] && cards.At(k) > 0
      invariant Distinct(ks)
    {
      if cards.At(LedgerOrder[i]) > 0 {
        ks := ks + [LedgerOrder[i]];
      }
    }
    assert LedgerOrder[..|LedgerOrder|] == LedgerOrder;
  }

  /** Some kind has a card whenever the total is positive. */
  lemma PositiveTotalHasCards(l: Ledger)
    requires Total(l) > 0
    ensures exists k: Resource :: l.At(k) > 0
  {
    if l.At(Brick) <= 0 && l.At(Grain) <= 0 && l.At(Lumber) <= 0 && l.At(Ore) <= 0 {
      assert l.At(Wool) > 0;
    }
  }

  /**
   * What the halving loop keeps: no kind rises, no kind goes below zero
   * unless it started there, the list holds exactly the kinds that still
   * have cards, and no kind is listed twice.
   */
  predicate Dwindled(cards: Ledger, out: Ledger, kinds: seq<Resource>)
  {
    (forall k: Resource :: out.At(k) <= cards.At(k) && (0 <= out.At(k) || out.At(k) == cards.At(k)))
    && (forall k: Resource :: k in kinds <==> out.At(k) > 0)
    && Distinct(kinds)
  }

  /**
   * Halves a hand: one card at a time leaves a randomly chosen kind that
   * still has cards until half the total is gone. The source's re-check of
   * the chosen count and its exit on an empty list never fire here, since
   * every listed kind has cards and some kind keeps cards while the total
   * is above the target.
   */
  method ReduceResourceCards(cards: Ledger) returns (out: Ledger)
    ensures Halved(cards, out)
  {
    out := cards;
    var total := CountCards(cards);
    if total > 7 {
      var target := total / 2;
      var resourceTypes := KindsHeld(cards);
      while total > target
        invariant total == Total(out) && target <= total
        invariant Dwindled(cards, out, resourceTypes)
        decreases total
      {
        out, resourceTypes := DiscardOne(cards, out, resourceTypes);
        total := total - 1;
      }
    }
  }

  /**
   * One pass of the halving loop: a randomly chosen listed kind loses a
   * card, and leaves the list when it has none left.
   */
  method DiscardOne(cards: Ledger, out: Ledger, kinds: seq<Resource>) returns (out': Ledger, kinds': seq<Resource>)
    requires Total(out) > 0 && Dwindled(cards, out, kinds)
    ensures Total(out') == Total(out) - 1 && Dwindled(cards, out', kinds')
  {
    PositiveTotalHasCards(out);
    var index :| 0 <= index < |kinds|;
    var kind := kinds[index];
    CreditTotal(out, kind, -1);
    out' := Credit(out, kind, -1);
    kinds' := kinds;
    if out'.At(kind) == 0 {
      RemoveAt(kinds, index);
      kinds' := kinds[..index] + kinds[index + 1..];
    }
  }

  /** The roller discards only if some single kind has more than seven cards. */
  predicate NeedsDiscard(l: Ledger)
  {
    exists k: Resource :: l.At(k) > 7
  }

  /** The roller's own discard: the hand is halved if some kind is above seven, and left alone otherwise. */
  predicate RollerDiscard(before: Ledger, after: Ledger)
  {
    if NeedsDiscard(before) then Halved(before, after) else after == before
  }

  /** Another player's check for one kind: if that count is above seven when reached, the hand is halved. */
  predicate DiscardStep(before: Ledger, after: Ledger, k: Resource)
  {
    if before.At(k) > 7 then Halved(before, after) else after == before
  }

  /** The checks for kinds ks, in order, each seeing the hand the previous ones left. */
  ghost predicate DiscardChain(before: Ledger, after: Ledger, ks: seq<Resource>)
    decreases |ks|
  {
    if ks == [] then after == before
    else
      var earlier, last := ks[..|ks| - 1], ks[|ks| - 1];
      exists mid: Ledger :: DiscardChain(before, mid, earlier) && DiscardStep(mid, after, last)
  }

  /** Halving never raises a count or the total. */
  lemma HalvedNeverRaises(before: Ledger, after: Ledger)
    requires Halved(before, after)
    ensures forall k: Resource :: after.At(k) <= before.At(k)
    ensures Total(after) <= Total(before)
    ensures Total(before) > 7 ==> Total(after) < Total(before)
  {
  }

  /** Along a chain of checks no count rises, and a hand with no kind above seven is left alone. */
  lemma {:induction false} DiscardChainNeverRaises(before: Ledger, after: Ledger, ks: seq<Resource>)
    requires DiscardChain(before, after, ks)
    ensures forall k: Resource :: after.At(k) <= before.At(k)
    ensures !NeedsDiscard(before) ==> after == before
    decreases |ks|
  {
    if ks != [] {
      var mid: Ledger :| DiscardChain(before, mid, ks[..|ks| - 1]) && DiscardStep(mid, after, ks[|ks| - 1]);
      DiscardChainNeverRaises(before, mid, ks[..|ks| - 1]);
      if mid.At(ks[|ks| - 1]) > 7 {
        HalvedNeverRaises(mid, after);
      }
    }
  }

  /** Extending a chain along the ledger order by the check for the next kind. */
  lemma DiscardChainExtend(before: Ledger, mid: Ledger, after: Ledger, i: nat)
    requires i < |LedgerOrder|
    requires DiscardChain(before, mid, LedgerOrder[..i]) && DiscardStep(mid, after, LedgerOrder[i])
    ensures DiscardChain(before, after, LedgerOrder[..i + 1])
  {
    assert LedgerOrder[..i + 1][..i] == LedgerOrder[..i];
  }

  /**
   * Another player's discard on a seven: the ledger is walked in order and,
   * each time the count reached is above seven, the whole hand is halved
   * (the walk goes on with the halved hand).
   */
  method DiscardOverloaded(cards: Ledger) returns (out: Ledger)
    ensures DiscardChain(cards, out, LedgerOrder)
  {
    out := cards;
    for i := 0 to |LedgerOrder|
      invariant DiscardChain(cards, out, LedgerOrder[..i])
    {
      var before := out;
      if out.At(LedgerOrder[i]) > 7 {
        out := ReduceResourceCards(out);
      }
      DiscardChainExtend(cards, before, out, i);
    }
    assert LedgerOrder[..|LedgerOrder|] == LedgerOrder;
  }

  // ---------------------------------------------------------------------
  // Production

  /** What a node pays player p when one of its terrains is rolled: 1 for p's Settlement, 2 for p's City. */
  function SiteYield(s: Site, p: PlayerId): (n: int)
    ensures 0 <= n <= 2
    ensures n > 0 ==> s.occupied && (s.settlement.Some? || s.city.Some?)
  {
    if !s.occupied then 0
    else if s.settlement.Some? && s.settlement.value.holder == Some(p) then 1
    else if s.city.Some? && s.city.value.holder == Some(p) then 2
    else 0
  }

  /** What a list of nodes pays p, visited in order. */
  function NodesYield(sites: seq<Site>, p: PlayerId, ns: seq<NodeId>): (n: int)
    requires |sites| == 54
    ensures 0 <= n <= 2 * |ns|
    decreases |ns|
  {
    if ns == [] then 0 else NodesYield(sites, p, ns[..|ns| - 1]) + SiteYield(sites[ns[|ns| - 1] - 1], p)
  }

  /** Visiting one more node of the list adds that node's yield. */
  lemma NodesYieldStep(sites: seq<Site>, p: PlayerId, ns: seq<NodeId>, j: nat)
    requires |sites| == 54 && j < |ns|
    ensures NodesYield(sites, p, ns[..j + 1]) == NodesYield(sites, p, ns[..j]) + SiteYield(sites[ns[j] - 1], p)
  {
    assert ns[..j + 1][..j] == ns[..j];
  }

  /** Crediting one more node's yield extends the credit of the nodes before it. */
  lemma YieldStep(start: Ledger, k: Resource, sites: seq<Site>, p: PlayerId, ns: seq<NodeId>, j: nat, mid: Ledger, now: Ledger)
    requires |sites| == 54 && j < |ns|
    requires mid == Credit(start, k, NodesYield(sites, p, ns[..j]))
    requires now == Credit(mid, k, SiteYield(sites[ns[j] - 1], p))
    ensures now == Credit(start, k, NodesYield(sites, p, ns[..j + 1]))
  {
    NodesYieldStep(sites, p, ns, j);
    CreditTwice(start, k, NodesYield(sites, p, ns[..j]), SiteYield(sites[ns[j] - 1], p), mid, now);
  }

  /** What terrain t adds to p's ledger for a roll: its nodes' yield in its kind, if its number is rolled. */
  function Produce(l: Ledger, sites: seq<Site>, p: PlayerId, roll: int, t: TerrainId): (r: Ledger)
    requires |sites| == 54
    ensures forall k: Resource :: r.At(k) >= l.At(k)
    ensures forall k: Resource :: (TerrainNumber(t) != roll || TerrainKind(t) != Some(k)) ==> r.At(k) == l.At(k)
  {
    if TerrainNumber(t) == roll && TerrainKind(t).Some?
    then Credit(l, TerrainKind(t).value, NodesYield(sites, p, TerrainNodes(t)))
    else l
  }

  /** The ledger after terrains 1 to upTo, in id order, have paid p for a roll. */
  function Harvest(l: Ledger, sites: seq<Site>, p: PlayerId, roll: int, upTo: nat): Ledger
    requires |sites| == 54 && upTo <= 19
  {
    if upTo == 0 then l else Produce(Harvest(l, sites, p, roll, upTo - 1), sites, p, roll, upTo)
  }

  /**
   * What a roll of total does to the roller's hand and the others' hands: on
   * a seven the roller halves once if some kind is above seven and each other
   * hand goes through the discard checks in ledger order; on any other total
   * the roller collects the harvest and the others are untouched.
   */
  ghost predicate RollEffect(total: int, mine: Ledger, theirs: seq<Ledger>, sites: seq<Site>, p: PlayerId,
                             mine': Ledger, theirs': seq<Ledger>)
    requires |sites| == 54
  {
    if total == 7 then
      RollerDiscard(mine, mine') && |theirs'| == |theirs|
      && forall i | 0 <= i < |theirs| :: DiscardChain(theirs[i], theirs'[i], LedgerOrder)
    else
      mine' == Harvest(mine, sites, p, total, 19) && theirs' == theirs
  }

  /** A seven pays nothing: no terrain carries that number. */
  lemma {:induction false} HarvestOnSeven(l: Ledger, sites: seq<Site>, p: PlayerId, upTo: nat)
    requires |sites| == 54 && upTo <= 19
    ensures Harvest(l, sites, p, 7, upTo) == l
  {
    if upTo > 0 {
      HarvestOnSeven(l, sites, p, upTo - 1);
      TerrainNumbers(upTo);
    }
  }

  /** Production never takes a card away. */
  lemma {:induction false} HarvestOnlyAdds(l: Ledger, sites: seq<Site>, p: PlayerId, roll: int, upTo: nat)
    requires |sites| == 54 && upTo <= 19
    ensures forall k: Resource :: Harvest(l, sites, p, roll, upTo).At(k) >= l.At(k)
  {
    if upTo > 0 {
      HarvestOnlyAdds(l, sites, p, roll, upTo - 1);
    }
  }

  /** A kind that no terrain carrying the rolled number produces is left as it was. */
  lemma {:induction false} HarvestOnlyRolledKinds(l: Ledger, sites: seq<Site>, p: PlayerId, roll: int, upTo: nat, k: Resource)
    requires |sites| == 54 && upTo <= 19
    requires forall t: TerrainId | t <= upTo :: TerrainNumber(t) != roll || TerrainKind(t) != Some(k)
    ensures Harvest(l, sites, p, roll, upTo).At(k) == l.At(k)
  {
    if upTo > 0 {
      HarvestOnlyRolledKinds(l, sites, p, roll, upTo - 1, k);
    }
  }

  /** A list of nodes none of which holds anything of p's pays p nothing. */
  lemma {:induction false} NodesYieldWithoutProperty(sites: seq<Site>, p: PlayerId, ns: seq<NodeId>)
    requires |sites| == 54
    requires forall i | 0 <= i < 54 :: SiteYield(sites[i], p) == 0
    ensures NodesYield(sites, p, ns) == 0
    decreases |ns|
  {
    if ns != [] {
      NodesYieldWithoutProperty(sites, p, ns[..|ns| - 1]);
      assert SiteYield(sites[ns[|ns| - 1] - 1], p) == 0;
    }
  }

  /** Crediting nothing changes nothing. */
  lemma CreditNothing(l: Ledger, k: Resource)
    ensures Credit(l, k, 0) == l
  {
    assert forall j: Resource :: Credit(l, k, 0).At(j) == l.At(j);
  }

  /** A player with no Settlement or City on the board gains nothing from any roll. */
  lemma {:induction false} HarvestWithoutProperty(l: Ledger, sites: seq<Site>, p: PlayerId, roll: int, upTo: nat)
    requires |sites| == 54 && upTo <= 19
    requires forall i | 0 <= i < 54 :: SiteYield(sites[i], p) == 0
    ensures Harvest(l, sites, p, roll, upTo) == l
  {
    if upTo > 0 {
      HarvestWithoutProperty(l, sites, p, roll, upTo - 1);
      NodesYieldWithoutProperty(sites, p, TerrainNodes(upTo));
      if TerrainNumber(upTo) == roll && TerrainKind(upTo).Some? {
        CreditNothing(l, TerrainKind(upTo).value);
      }
    }
  }

  // ---------------------------------------------------------------------
  // Initial placement income

  /** One card for every listed terrain that produces a kind; the desert gives nothing. */
  function SettlementIncome(l: Ledger, ts: seq<TerrainId>): Ledger
    decreases |ts|
  {
    if ts == [] then l
    else
      var before := SettlementIncome(l, ts[..|ts| - 1]);
      match TerrainKind(ts[|ts| - 1])
      case Some(k) => Credit(before, k, 1)
      case None => before
  }

  /** Visiting one more terrain of the list adds its card, if it produces one. */
  lemma SettlementIncomeStep(l: Ledger, ts: seq<TerrainId>, i: nat)
    requires i < |ts|
    ensures SettlementIncome(l, ts[..i + 1])
            == if TerrainKind(ts[i]).Some? then Credit(SettlementIncome(l, ts[..i]), TerrainKind(ts[i]).value, 1) else SettlementIncome(l, ts[..i])
  {
    assert ts[..i + 1][..i] == ts[..i];
  }

  /** How many of the listed terrains produce a kind. */
  function ProducingCount(ts: seq<TerrainId>): (n: nat)
    ensures n <= |ts|
    decreases |ts|
  {
    if ts == [] then 0
    else ProducingCount(ts[..|ts| - 1]) + (if TerrainKind(ts[|ts| - 1]).Some? then 1 else 0)
  }

  /** The income is one card per producing terrain, and no count falls. */
  lemma {:induction false} SettlementIncomeTotal(l: Ledger, ts: seq<TerrainId>)
    ensures Total(SettlementIncome(l, ts)) == Total(l) + ProducingCount(ts)
    ensures forall k: Resource :: SettlementIncome(l, ts).At(k) >= l.At(k)
    decreases |ts|
  {
    if ts != [] {
      SettlementIncomeTotal(l, ts[..|ts| - 1]);
      var before := SettlementIncome(l, ts[..|ts| - 1]);
      if TerrainKind(ts[|ts| - 1]).Some? {
        CreditTotal(before, TerrainKind(ts[|ts| - 1]).value, 1);
      }
    }
  }

  /** An initial settlement earns at most three cards, one per terrain around it that is not the desert. */
  lemma InitialIncomeBound(l: Ledger, n: NodeId)
    ensures Total(l) <= Total(SettlementIncome(l, NodeTerrains(n))) <= Total(l) + 3
  {
    SettlementIncomeTotal(l, NodeTerrains(n));
    NodeDegrees(n);
  }

  // ---------------------------------------------------------------------
  // Trading

  /**
   * The two ledgers after a completed trade: the initiator gives amountGive
   * of give and gets amountReceive of receive; the partner the reverse.
   */
  function Trade(mine: Ledger, theirs: Ledger, give: Resource, receive: Resource,
                 amountGive: int, amountReceive: int): (r: (Ledger, Ledger))
    ensures forall k: Resource ::
              r.0.At(k) == mine.At(k) - (if k == give then amountGive else 0) + (if k == receive then amountReceive else 0)
    ensures forall k: Resource ::
              r.1.At(k) == theirs.At(k) + (if k == give then amountGive else 0) - (if k == receive then amountReceive else 0)
    ensures forall k: Resource :: r.0.At(k) + r.1.At(k) == mine.At(k) + theirs.At(k)
  {
    var mine' := Credit(Credit(mine, give, -amountGive), receive, amountReceive);
    var theirs' := Credit(Credit(theirs, receive, -amountReceive), give, amountGive);
    (mine', theirs')
  }

  /** Two ledgers that agree on every kind are equal. */
  lemma LedgerExt(a: Ledger, b: Ledger)
    requires forall k: Resource :: a.At(k) == b.At(k)
    ensures a == b
  {
    assert a.At(Brick) == b.At(Brick) && a.At(Grain) == b.At(Grain) && a.At(Lumber) == b.At(Lumber);
    assert a.At(Ore) == b.At(Ore) && a.At(Wool) == b.At(Wool);
  }

  // ---------------------------------------------------------------------
  // Monopoly

  /** The total count of kind k over a list of ledgers. */
  function KindSum(ls: seq<Ledger>, k: Resource): int
    decreases |ls|
  {
    if ls == [] then 0 else KindSum(ls[..|ls| - 1], k) + ls[|ls| - 1].At(k)
  }

  /** Extending a prefix by one ledger adds that ledger's count. */
  lemma KindSumStep(ls: seq<Ledger>, i: nat, k: Resource)
    requires i < |ls|
    ensures KindSum(ls[..i + 1], k) == KindSum(ls[..i], k) + ls[i].At(k)
  {
    assert ls[..i + 1][..i] == ls[..i];
  }

  /** The ledger with no cards of kind k left. */
  function Drained(l: Ledger, k: Resource): (r: Ledger)
    ensures forall j: Resource :: r.At(j) == (if j == k then 0 else l.At(j))
  {
    Credit(l, k, -l.At(k))
  }

  /** Every other ledger gives up all of kind k, and the taker gains what they held. */
  predicate Seized(mine: Ledger, mine': Ledger, theirs: seq<Ledger>, theirs': seq<Ledger>, k: Resource)
  {
    |theirs'| == |theirs|
    && (forall i | 0 <= i < |theirs| :: theirs'[i] == Drained(theirs[i], k))
    && mine' == Credit(mine, k, KindSum(theirs, k))
  }

  /** Taking all of one kind from the others leaves them none of it. */
  lemma {:induction false} KindSumZero(ls: seq<Ledger>, k: Resource)
    requires forall i | 0 <= i < |ls| :: ls[i].At(k) == 0
    ensures KindSum(ls, k) == 0
    decreases |ls|
  {
    if ls != [] {
      KindSumZero(ls[..|ls| - 1], k);
    }
  }

  /** Other kinds are untouched by taking all of kind k. */
  lemma {:induction false} KindSumOthers(ls: seq<Ledger>, ls': seq<Ledger>, k: Resource, j: Resource)
    requires |ls'| == |ls| && j != k
    requires forall i | 0 <= i < |ls| :: ls'[i] == Drained(ls[i], k)
    ensures KindSum(ls', j) == KindSum(ls, j)
    decreases |ls|
  {
    if ls != [] {
      KindSumOthers(ls[..|ls| - 1], ls'[..|ls'| - 1], k, j);
    }
  }

  /** A Monopoly moves cards without creating or destroying any: every kind's total over all players is kept. */
  lemma SeizedConserves(mine: Ledger, mine': Ledger, theirs: seq<Ledger>, theirs': seq<Ledger>, k: Resource)
    requires Seized(mine, mine', theirs, theirs', k)
    ensures forall j: Resource :: mine'.At(j) + KindSum(theirs', j) == mine.At(j) + KindSum(theirs, j)
    ensures KindSum(theirs', k) == 0
  {
    KindSumZero(theirs', k);
    forall j: Resource ensures mine'.At(j) + KindSum(theirs', j) == mine.At(j) + KindSum(theirs, j) {
      if j != k {
        KindSumOthers(theirs, theirs', k, j);
      }
    }
  }

  // ---------------------------------------------------------------------
  // Development card effects

  /**
   * What playing a card of the given kind does to the player's ledger and
   * score and to the other players' ledgers, given the card's held count
   * before the play. Only Monopoly touches the other players.
   */
  ghost predicate CardEffect(kind: DevKind, count: int, mine: Ledger, score: int, theirs: seq<Ledger>,
                             mine': Ledger, score': int, theirs': seq<Ledger>)
  {
    match kind
    case Monopoly =>
      score' == score && exists k: Resource :: LeastHeld(mine, k) && Seized(mine, mine', theirs, theirs', k)
    case VictoryPoint =>
      score' == score + 1 && mine' == mine && theirs' == theirs
    case YearOfPlenty =>
      score' == score && theirs' == theirs
      && exists k1, k2 :: TwoLeastHeld(mine, k1, k2) && mine' == Credit(Credit(mine, k1, 1), k2, 1)
    case RoadBuilding =>
      score' == score && mine' == Credit(Credit(mine, Lumber, 1), Brick, 1) && theirs' == theirs
    case Knight =>
      score' == score + (if count == 3 then 2 else 0) && mine' == mine && theirs' == theirs
  }

  // ---------------------------------------------------------------------
  // Outcomes of the building actions

  /** Some pathway among ids is occupied and owned by p. */
  predicate OwnsRoadAmong(roads: seq<Road>, p: PlayerId, ids: seq<PathId>)
    requires |roads| == 72
  {
    exists j :: 0 <= j < |ids| && roads[ids[j] - 1].occupied && roads[ids[j] - 1].owner == Some(p)
  }

  /** Some listed neighbour of n is occupied. */
  predicate NeighborOccupied(sites: seq<Site>, n: NodeId)
    requires |sites| == 54
  {
    exists j :: 0 <= j < |Neighbors(n)| && sites[Neighbors(n)[j] - 1].occupied
  }

  /** One of the first three listed nodes is occupied: what a look at three neighbour slots finds. */
  predicate SlotOccupied(sites: seq<Site>, ids: seq<NodeId>)
    requires |sites| == 54
  {
    exists j :: 0 <= j < 3 && j < |ids| && sites[ids[j] - 1].occupied
  }

  /** One of the first three listed pathways is an occupied road of p's: what a look at three pathway slots finds. */
  predicate SlotOwned(roads: seq<Road>, p: PlayerId, ids: seq<PathId>)
    requires |roads| == 72
  {
    exists j :: 0 <= j < 3 && j < |ids| && roads[ids[j] - 1].occupied && roads[ids[j] - 1].owner == Some(p)
  }

  /** Node n is occupied and holds a Settlement owned by p. */
  predicate OwnsSettlementAt(sites: seq<Site>, p: PlayerId, n: NodeId)
    requires |sites| == 54
  {
    sites[n - 1].occupied && sites[n - 1].settlement.Some? && sites[n - 1].settlement.value.holder == Some(p)
  }

  /** Building a Settlement: the checks in the order they are made. */
  function BuildSettlementOutcome(l: Ledger, sites: seq<Site>, roads: seq<Road>, p: PlayerId, n: int): Status
    requires |sites| == 54 && |roads| == 72
  {
    if !(1 <= n <= 54) then Reported(UnknownLocation)
    else if sites[n - 1].occupied then Reported(LocationOccupied)
    else if !Affords(l, SettlementCost()) then Reported(InsufficientResources)
    else if NeighborOccupied(sites, n) then Reported(DistanceRule)
    else if !OwnsRoadAmong(roads, p, NodePathways(n)) then Reported(NoConnectedRoad)
    else Ok(())
  }

  /** Building a road on pathway e: once it is free and affordable it is paid for, connected or not. */
  function BuildPathwayOutcome(l: Ledger, roads: seq<Road>, p: PlayerId, e: PathId): Status
    requires |roads| == 72
  {
    if roads[e - 1].occupied then Reported(LocationOccupied)
    else if !Affords(l, PathwayCost()) then Reported(InsufficientResources)
    else if !(OwnsRoadAmong(roads, p, NodePathways(PathEnds(e).0)) || OwnsRoadAmong(roads, p, NodePathways(PathEnds(e).1)))
    then Reported(NoConnectedRoad)
    else Ok(())
  }

  /** Upgrading node n: it must hold a Settlement and no City, whoever owns it. */
  function UpgradeOutcome(l: Ledger, sites: seq<Site>, n: NodeId): Status
    requires |sites| == 54
  {
    if sites[n - 1].city.Some? || sites[n - 1].settlement.None? then Thrown(CannotUpgrade)
    else if !Affords(l, CityCost()) then Thrown(InsufficientResources)
    else Ok(())
  }

  /** Placing an initial Settlement: the node must exist and be free; nothing else is checked. */
  function InitialSettlementOutcome(sites: seq<Site>, n: int): Status
    requires |sites| == 54
  {
    if !(1 <= n <= 54) then Thrown(UnknownLocation)
    else if sites[n - 1].occupied then Thrown(LocationOccupied)
    else Ok(())
  }

  /** Placing an initial road on e: one end must hold p's Settlement; the pathway's own state is not looked at. */
  function InitialPathwayOutcome(sites: seq<Site>, p: PlayerId, e: PathId): Status
    requires |sites| == 54
  {
    if OwnsSettlementAt(sites, p, PathEnds(e).0) || OwnsSettlementAt(sites, p, PathEnds(e).1) then Ok(())
    else Thrown(NoConnectedSettlement)
  }

  /** No two distinct adjacent nodes are both occupied. */
  predicate DistanceRuleHolds(sites: seq<Site>)
    requires |sites| == 54
  {
    forall a: NodeId, b: NodeId :: a != b && Adjacent(a, b) ==> !(sites[a - 1].occupied && sites[b - 1].occupied)
  }

  /** Every site keeps a Settlement and a City apart, each with an owner. */
  predicate SitesValid(sites: seq<Site>)
  {
    forall i | 0 <= i < |sites| :: SiteValid(sites[i])
  }

  /** A Settlement built by the rules keeps the distance rule, because adjacency is symmetric. */
  lemma SettlementKeepsDistance(l: Ledger, sites: seq<Site>, roads: seq<Road>, p: PlayerId, n: NodeId)
    requires |sites| == 54 && |roads| == 72
    requires DistanceRuleHolds(sites) && SitesValid(sites)
    requires BuildSettlementOutcome(l, sites, roads, p, n).Ok?
    ensures var after := sites[n - 1 := Site(Some(Settlement(p)), None, true)];
            DistanceRuleHolds(after) && SitesValid(after)
  {
    var after := sites[n - 1 := Site(Some(Settlement(p)), None, true)];
    forall a: NodeId, b: NodeId | a != b && Adjacent(a, b)
      ensures !(after[a - 1].occupied && after[b - 1].occupied)
    {
      NeighborsSymmetric(a, b);
      if a == n {
        NeighborAtIndex(sites, n, b);
      } else if b == n {
        NeighborAtIndex(sites, n, a);
      }
    }
  }

  /** A listed neighbour m of n that is occupied makes NeighborOccupied true. */
  lemma NeighborAtIndex(sites: seq<Site>, n: NodeId, m: NodeId)
    requires |sites| == 54 && Adjacent(n, m) && !NeighborOccupied(sites, n)
    ensures !sites[m - 1].occupied
  {
    var j :| 0 <= j < |Neighbors(n)| && Neighbors(n)[j] == m;
  }

  /** Without an owned road anywhere, a road can never be built, though it may still be paid for. */
  lemma FirstRoadNeedsInitialPlacement(l: Ledger, roads: seq<Road>, p: PlayerId, e: PathId)
    requires |roads| == 72
    requires forall i | 0 <= i < 72 :: !(roads[i].occupied && roads[i].owner == Some(p))
    ensures !BuildPathwayOutcome(l, roads, p, e).Ok?
    ensures !roads[e - 1].occupied && Affords(l, PathwayCost()) ==> BuildPathwayOutcome(l, roads, p, e) == Reported(NoConnectedRoad)
  {
    forall ids: seq<PathId> ensures !OwnsRoadAmong(roads, p, ids) {
    }
  }

  /** Any player may upgrade any Settlement, including another player's. */
  lemma UpgradeIgnoresOwner(l: Ledger, sites: seq<Site>, n: NodeId, q: PlayerId)
    requires |sites| == 54 && sites[n - 1] == Site(Some(Settlement(q)), None, true)
    ensures UpgradeOutcome(l, sites, n) == (if Affords(l, CityCost()) then Ok(()) else Thrown(InsufficientResources))
  {
  }

  /** Initial settlements are exempt from the distance rule: two neighbouring nodes can both be taken. */
  lemma InitialPlacementIgnoresDistance(p: PlayerId)
    ensures var empty := seq(54, i => Site(None, None, false));
            var one := empty[0 := Site(Some(Settlement(p)), None, true)];
            InitialSettlementOutcome(empty, 1) == Ok(())
            && InitialSettlementOutcome(one, 2) == Ok(())
            && Adjacent(1, 2)
            && !DistanceRuleHolds(one[1 := Site(Some(Settlement(p)), None, true)])
  {
    var empty := seq(54, i => Site(None, None, false));
    var one := empty[0 := Site(Some(Settlement(p)), None, true)];
    var two := one[1 := Site(Some(Settlement(p)), None, true)];
    assert one[1] == Site(None, None, false);
    assert InitialSettlementOutcome(one, 2) == Ok(());
    assert Neighbors(1)[0] == 2;
    assert Adjacent(1, 2);
    assert two[0].occupied && two[1].occupied;
  }
}
