/**
 * A player: a resource ledger, a score, a turn flag, development-card
 * holdings keyed by card object, and links to the next player, the other
 * players and the board. Every action is proved to end exactly as the
 * matching rule in module Rules says and to leave the new state it
 * describes.
 */
module Players {
  import opened Outcomes
  import opened ResourceCards
  import opened Development
  import opened Topology
  import opened Property
  import opened Nodes
  import opened Terrains
  import opened Board
  import opened Rules

  /** How many of one card object a holdings map records; an absent card counts as zero. */
  function HeldCount(m: map<DevCard, int>, c: DevCard): int
  {
    if c in m then m[c] else 0
  }

  /** The holdings after playing one card with held count n: one fewer, and the entry removed at zero. */
  function AfterPlay(m: map<DevCard, int>, c: DevCard, n: int): (r: map<DevCard, int>)
    ensures HeldCount(r, c) == n - 1
    ensures forall d | d in m && d != c :: d in r && r[d] == m[d]
    ensures forall d | d in r :: d in m || d == c
  {
    if n - 1 == 0 then m - {c} else m[c := n - 1]
  }

  /** The kinds of the card objects a holdings map records. */
  function CardKinds(m: map<DevCard, int>): set<DevKind>
  {
    set c | c in m :: c.kind
  }

  /** The players' ledgers, in list order. */
  ghost function LedgersOf(ps: seq<Player>): (ls: seq<Ledger>)
    reads ps`resources
    ensures |ls| == |ps| && forall i | 0 <= i < |ps| :: ls[i] == ps[i].resources
    decreases |ps|
  {
    if ps == [] then [] else LedgersOf(ps[..|ps| - 1]) + [ps[|ps| - 1].resources]
  }

  /** One fresh card of each kind, each held zero times. */
  method NewHoldings() returns (m: map<DevCard, int>)
    ensures |m| == 5 && CardKinds(m) == AllDevKinds
    ensures forall c | c in m :: fresh(c) && m[c] == 0
  {
    var monopoly := new DevCard(Monopoly);
    var victoryPoint := new DevCard(VictoryPoint);
    var plenty := new DevCard(YearOfPlenty);
    var roadBuilding := new DevCard(RoadBuilding);
    var knight := new DevCard(Knight);
    m := map[monopoly := 0, victoryPoint := 0, plenty := 0, roadBuilding := 0, knight := 0];
    assert m.Keys == {monopoly, victoryPoint, plenty, roadBuilding, knight};
    assert CardKinds(m) == {monopoly.kind, victoryPoint.kind, plenty.kind, roadBuilding.kind, knight.kind};
  }

  class Player {
    const name: string
    var resources: Ledger
    var score: int
    var turnActive: bool
    var nextPlayer: Player?
    var board: GameBoard?
    var others: seq<Player>
    var devCards: map<DevCard, int>

    /** Every card object is held zero times or once. */
    ghost predicate HoldingsValid()
      reads this
    {
      forall c | c in devCards :: 0 <= devCards[c] <= 1
    }

    /** The other players are listed once each and do not include this player. */
    ghost predicate OthersApart()
      reads this
    {
      this !in others && forall i, j | 0 <= i < j < |others| :: others[i] != others[j]
    }

    /**
     * A named player: every kind at zero, no score, not on turn, no links yet,
     * and one fresh card of each kind held zero times.
     */
    constructor (name: string)
      ensures this.name == name && resources == ZeroLedger() && score == 0 && !turnActive
      ensures nextPlayer == null && board == null && others == []
      ensures |devCards| == 5 && CardKinds(devCards) == AllDevKinds
      ensures forall c | c in devCards :: fresh(c) && devCards[c] == 0
      ensures HoldingsValid() && OthersApart()
    {
      var holdings := NewHoldings();
      this.name := name;
      resources := ZeroLedger();
      score := 0;
      turnActive := false;
      nextPlayer := null;
      board := null;
      others := [];
      devCards := holdings;
    }

    /** The count of the named kind; a name that is not a ledger key is an error. */
    function CountSpecificResourceCard(kind: string): (r: Outcome<int>)
      reads this
      ensures r.Ok? <==> ParseResource(kind).Some?
      ensures r.Ok? ==> r.value == resources.At(ParseResource(kind).value)
      ensures !r.Ok? ==> r == Thrown(UnknownResource)
    {
      match ParseResource(kind)
      case Some(k) => Ok(resources.At(k))
      case None => Thrown(UnknownResource)
    }

    /** Sets the turn flag and nothing else. */
    method ActivateTurn(isActive: bool)
      modifies this`turnActive
      ensures turnActive == isActive
    {
      turnActive := isActive;
    }

    method SetNextPlayer(participant: Player?)
      modifies this`nextPlayer
      ensures nextPlayer == participant
    {
      nextPlayer := participant;
    }

    /** Appends a player to the others; one already listed is listed again. */
    method SetOtherPlayer(participant: Player)
      modifies this`others
      ensures others == old(others) + [participant]
    {
      others := others + [participant];
    }

    method AssignGameBoard(b: GameBoard?)
      modifies this`board
      ensures board == b
    {
      board := b;
    }

    /** One card of the card's kind. */
    method ObtainResourceCard(card: ResourceCard)
      requires card.KindCard?
      modifies this`resources
      ensures resources == Credit(old(resources), card.kind, 1)
    {
      resources := Credit(resources, card.kind, 1);
    }

    /** Two cards of the card's kind. */
    method ReceiveTwoResourceCards(card: ResourceCard)
      requires card.KindCard?
      modifies this`resources
      ensures resources == Credit(old(resources), card.kind, 2)
    {
      resources := Credit(resources, card.kind, 2);
    }

    /** Some card held a positive number of times, or none when there is no such card. */
    method DrawDevelopmentCard() returns (c: DevCard?)
      ensures c == null <==> forall d | d in devCards :: devCards[d] <= 0
      ensures c != null ==> c in devCards && devCards[c] > 0
    {
      if d :| d in devCards && devCards[d] > 0 {
        return d;
      }
      return null;
    }

    // -------------------------------------------------------------------
    // Trading

    /**
     * Trades amountGive of give for amountReceive of receive with
     * participant. Names are simplified first; both sides must hold their part.
     */
    method ConductTrade(participant: Player, give: string, receive: string, amountGive: int, amountReceive: int)
      returns (r: Status)
      modifies this`resources, participant`resources
      ensures participant == this ==> r == Thrown(SelfTrade)
      ensures participant != this && (ParseResource(SimplifyResourceName(give)).None? || ParseResource(SimplifyResourceName(receive)).None?)
              ==> r == Thrown(UnknownResource)
      ensures r.Ok? <==>
              participant != this
              && ParseResource(SimplifyResourceName(give)).Some? && ParseResource(SimplifyResourceName(receive)).Some?
              && old(resources).At(ParseResource(SimplifyResourceName(give)).value) >= amountGive
              && old(participant.resources).At(ParseResource(SimplifyResourceName(receive)).value) >= amountReceive
      ensures !r.Ok? ==> r.Thrown? && resources == old(resources) && participant.resources == old(participant.resources)
      ensures r.Ok? ==> (resources, participant.resources)
                        == Trade(old(resources), old(participant.resources),
                                 ParseResource(SimplifyResourceName(give)).value, ParseResource(SimplifyResourceName(receive)).value,
                                 amountGive, amountReceive)
    {
      if participant == this {
        return Thrown(SelfTrade);
      }
      var simplifiedGive := SimplifyResourceName(give);
      var simplifiedReceive := SimplifyResourceName(receive);
      var g, w := ParseResource(simplifiedGive), ParseResource(simplifiedReceive);
      if g.None? || w.None? {
        return Thrown(UnknownResource);
      }
      if resources.At(g.value) >= amountGive && participant.resources.At(w.value) >= amountReceive {
        var traded := Trade(resources, participant.resources, g.value, w.value, amountGive, amountReceive);
        resources := traded.0;
        participant.resources := traded.1;
        r := Ok(());
      } else {
        r := Thrown(TradeRefused);
      }
    }

    // -------------------------------------------------------------------
    // Development cards

    /**
     * Buys a development card: with one Grain, Ore and Wool the cost is paid
     * and a card drawn from the board's deck; an empty deck leaves the cost
     * paid and no card. The drawn card is returned as well.
     */
    method AcquireDevelopmentCard() returns (r: Status, drawn: DevCard?)
      requires board != null && board.Valid()
      modifies this`resources, this`devCards, board`deck
      ensures board.Valid()
      ensures !Affords(old(resources), DevelopmentCost())
              ==> r == Reported(InsufficientResources) && drawn == null && resources == old(resources)
                  && devCards == old(devCards) && board.deck == old(board.deck)
      ensures Affords(old(resources), DevelopmentCost()) ==> resources == Pay(old(resources), DevelopmentCost())
      ensures Affords(old(resources), DevelopmentCost()) && drawn == null
              ==> r == Reported(DeckExhausted) && (forall k: DevKind :: old(board.deck)[k] == 0)
                  && devCards == old(devCards) && board.deck == old(board.deck)
      ensures drawn != null
              ==> r == Ok(()) && fresh(drawn) && old(board.deck)[drawn.kind] > 0
                  && devCards == old(devCards)[drawn := 1]
                  && board.deck == old(board.deck)[drawn.kind := old(board.deck)[drawn.kind] - 1]
      ensures old(HoldingsValid()) ==> HoldingsValid()
    {
      DevelopmentCostAsChecked(resources);
      if resources.At(Grain) < 1 || resources.At(Ore) < 1 || resources.At(Wool) < 1 {
        return Reported(InsufficientResources), null;
      }
      resources := Pay(resources, DevelopmentCost());
      drawn := board.DrawRandomDevCard();
      if drawn == null {
        return Reported(DeckExhausted), null;
      }
      devCards := devCards[drawn := HeldCount(devCards, drawn) + 1];
      r := Ok(());
    }

    /** Monopoly: every other player hands over all of the kind this player holds least of. */
    method PlayMonopoly() returns (ghost taken: Resource)
      requires OthersApart()
      requires forall j: Resource :: resources.At(j) < IntMax
      modifies this`resources, others`resources
      ensures LeastHeld(old(resources), taken)
      ensures Seized(old(resources), resources, old(LedgersOf(others)), LedgersOf(others), taken)
    {
      var resourceType := LeastHeldKind(resources);
      taken := resourceType;
      SeizeFromOthers(resourceType);
    }

    /** One other player hands over all of kind k. */
    method TakeAll(player: Player, k: Resource)
      requires player != this
      modifies this`resources, player`resources
      ensures player.resources == Drained(old(player.resources), k)
      ensures resources == Credit(old(resources), k, old(player.resources).At(k))
    {
      var amount := player.resources.At(k);
      player.resources := Credit(player.resources, k, -amount);
      resources := Credit(resources, k, amount);
    }

    /** Each other player in turn hands over all of kind k. */
    method SeizeFromOthers(k: Resource)
      requires OthersApart()
      modifies this`resources, others`resources
      ensures Seized(old(resources), resources, old(LedgersOf(others)), LedgersOf(others), k)
    {
      ghost var before := LedgersOf(others);
      DrainOthers(k, before);
    }

    /** The loop of SeizeFromOthers, over the others' hands listed in before. */
    method DrainOthers(k: Resource, ghost before: seq<Ledger>)
      requires OthersApart() && |before| == |others| && forall j | 0 <= j < |others| :: others[j].resources == before[j]
      modifies this`resources, others`resources
      ensures forall j | 0 <= j < |others| :: others[j].resources == Drained(before[j], k)
      ensures resources == Credit(old(resources), k, KindSum(before, k))
    {
      var participants := others;
      ghost var mine := resources;
      ghost var gained := 0;
      for i := 0 to |participants|
        invariant forall j | 0 <= j < i :: participants[j].resources == Drained(before[j], k)
        invariant forall j | i <= j < |participants| :: participants[j].resources == before[j]
        invariant resources == Credit(mine, k, gained)
        invariant gained == KindSum(before[..i], k)
      {
        ghost var mid := resources;
        TakeAll(participants[i], k);
        CreditTwice(mine, k, gained, before[i].At(k), mid, resources);
        gained := gained + before[i].At(k);
        KindSumStep(before, i, k);
      }
      assert before[..|participants|] == before;
    }

    /** Year of Plenty: one card each of the two kinds held least. */
    method PlayYearOfPlenty()
      requires forall j: Resource :: resources.At(j) < IntMax
      modifies this`resources
      ensures exists k1, k2 :: TwoLeastHeld(old(resources), k1, k2) && resources == Credit(Credit(old(resources), k1, 1), k2, 1)
    {
      var resource1, resource2 := TwoLeastHeldKinds(resources);
      resources := Credit(Credit(resources, resource1, 1), resource2, 1);
    }

    /** The effect of card, chosen by its type name; the holdings are not touched. */
    method ApplyEffect(card: DevCard)
      requires card.kind == Monopoly ==> OthersApart()
      requires card.kind == YearOfPlenty || card.kind == RoadBuilding ==> this !in others
      requires card.kind == Monopoly || card.kind == YearOfPlenty ==> forall j: Resource :: resources.At(j) < IntMax
      modifies this`resources, this`score, others`resources
      ensures CardEffect(card.kind, HeldCount(devCards, card), old(resources), old(score), old(LedgersOf(others)),
                         resources, score, LedgersOf(others))
    {
      var t := card.TypeName();
      if t == "Monopoly" {
        ghost var taken := PlayMonopoly();
      } else if t == "Victory Point" {
        score := score + 1;
      } else if t == "Year of Plenty" {
        PlayYearOfPlenty();
      } else if t == "Road Building" {
        ObtainResourceCard(KindCard(Lumber));
        ObtainResourceCard(KindCard(Brick));
      } else if t == "Knight" {
        if HeldCount(devCards, card) == 3 {
          score := score + 2;
        }
      }
    }

    /**
     * Applies a card's effect by its type name, then lowers its held count
     * by one, removing the entry at zero. The card need not be held: an
     * absent card is recorded with count minus one.
     */
    method ApplyDevelopmentCardEffect(card: DevCard)
      requires card.kind == Monopoly ==> OthersApart()
      requires card.kind == YearOfPlenty || card.kind == RoadBuilding ==> this !in others
      requires card.kind == Monopoly || card.kind == YearOfPlenty ==> forall j: Resource :: resources.At(j) < IntMax
      modifies this`resources, this`score, this`devCards, others`resources
      ensures CardEffect(card.kind, HeldCount(old(devCards), card), old(resources), old(score), old(LedgersOf(others)),
                         resources, score, LedgersOf(others))
      ensures devCards == AfterPlay(old(devCards), card, HeldCount(old(devCards), card))
      ensures old(HoldingsValid()) && HeldCount(old(devCards), card) == 1 ==> HoldingsValid()
      ensures card.kind == Knight && old(HoldingsValid()) ==> score == old(score)
    {
      ApplyEffect(card);
      RemovePlayed(card);
    }

    /** Lowers the held count of a just played card by one, removing the entry at zero; no hand changes. */
    method RemovePlayed(card: DevCard)
      modifies this`devCards
      ensures devCards == AfterPlay(old(devCards), card, HeldCount(old(devCards), card))
      ensures old(HoldingsValid()) && HeldCount(old(devCards), card) == 1 ==> HoldingsValid()
      ensures LedgersOf(others) == old(LedgersOf(others))
    {
      devCards := AfterPlay(devCards, card, HeldCount(devCards, card));
    }

    /**
     * Plays a card: no card is a reported error; a card whose held count is
     * zero is recorded (with count zero) and refused.
     */
    method ActivateDevelopmentCard(card: DevCard?) returns (r: Status)
      requires card != null && card.kind == Monopoly ==> OthersApart()
      requires card != null && (card.kind == YearOfPlenty || card.kind == RoadBuilding) ==> this !in others
      requires card != null && (card.kind == Monopoly || card.kind == YearOfPlenty) ==> forall j: Resource :: resources.At(j) < IntMax
      modifies this`resources, this`score, this`devCards, others`resources
      ensures card == null ==> r == Reported(NoCardGiven) && unchanged(this) && LedgersOf(others) == old(LedgersOf(others))
      ensures card != null && HeldCount(old(devCards), card) == 0
              ==> r == Thrown(CardNotHeld) && devCards == old(devCards)[card := 0]
                  && resources == old(resources) && score == old(score) && LedgersOf(others) == old(LedgersOf(others))
      ensures card != null && HeldCount(old(devCards), card) != 0 
              ==> r == Ok(()) && devCards == AfterPlay(old(devCards), card, HeldCount(old(devCards), card))
                  && CardEffect(card.kind, HeldCount(old(devCards), card), old(resources), old(score), old(LedgersOf(others)),
                                resources, score, LedgersOf(others))
      ensures old(HoldingsValid()) ==> HoldingsValid()
    {
      if card == null {
        return Reported(NoCardGiven);
      }
      if HeldCount(devCards, card) == 0 {
        devCards := devCards[card := 0];
        return Thrown(CardNotHeld);
      }
      ApplyDevelopmentCardEffect(card);
      r := Ok(());
    }

    // -------------------------------------------------------------------
    // Building

    /** Whether one of the first three neighbour slots of node n holds an occupied node. */
    method NeighborTaken(n: NodeId) returns (taken: bool)
      requires board != null && board.Indexed()
      ensures taken == SlotOccupied(board.Sites(), board.nodes[n - 1].neighbors)
    {
      var node := board.LocateNode(n).value;
      ghost var sites := board.Sites();
      taken := false;
      for i := 0 to 3
        invariant !taken
        invariant forall j | 0 <= j < i && j < |node.neighbors| :: !sites[node.neighbors[j] - 1].occupied
      {
        var neighborId := node.NeighborAt(i);
        if neighborId.Some? {
          var neighbor := board.LocateNode(neighborId.value).value;
          if neighbor.occupied {
            taken := true;
            break;
          }
        }
      }
    }

    /** Whether one of the first three pathway slots of node n holds an occupied pathway of this player's. */
    method PathwayConnected(n: NodeId) returns (connected: bool)
      requires board != null && board.Indexed()
      ensures connected == SlotOwned(board.Roads(), this, board.nodes[n - 1].pathways)
    {
      var node := board.LocateNode(n).value;
      ghost var roads := board.Roads();
      connected := false;
      for i := 0 to 3
        invariant !connected
        invariant forall j | 0 <= j < i && j < |node.pathways| :: !(roads[node.pathways[j] - 1].occupied && roads[node.pathways[j] - 1].owner == Some(this))
      {
        var pathId := node.PathwayAt(i);
        if pathId.Some? {
          var pathway := board.LocatePathway(pathId.value);
          if pathway.occupied && pathway.owner == Some(this) {
            connected := true;
            break;
          }
        }
      }
    }

    /** Whether one of the listed pathways is occupied and this player's, looked at in list order. */
    method OwnedRoadAmong(ids: seq<PathId>) returns (found: bool)
      requires board != null && board.Indexed()
      ensures found == OwnsRoadAmong(board.Roads(), this, ids)
    {
      for i := 0 to |ids|
        invariant forall j | 0 <= j < i :: !(board.Roads()[ids[j] - 1].occupied && board.Roads()[ids[j] - 1].owner == Some(this))
      {
        var pathway := board.LocatePathway(ids[i]);
        if pathway.occupied && pathway.owner == Some(this) {
          return true;
        }
      }
      return false;
    }

    /** Puts a new Settlement of this player's on node n; of all sites only the n-th changes. */
    method PlaceSettlement(node: Node, n: NodeId)
      requires board != null && board.Valid() && node == board.nodes[n - 1]
      modifies node`settlement, node`city, node`occupied
      ensures board.Valid() && board.Roads() == old(board.Roads())
      ensures board.Sites() == old(board.Sites())[n - 1 := Site(Some(Settlement(this)), None, true)]
    {
      node.SetSettlement(Settlement(this));
      board.SiteChanged(n - 1);
    }

    /** Pays for a Settlement, scores a point and puts the Settlement on node n. */
    method PaySettlement(node: Node, n: NodeId)
      requires board != null && board.Valid() && node == board.nodes[n - 1]
      modifies this`resources, this`score, node`settlement, node`city, node`occupied
      ensures board.Valid() && board.Roads() == old(board.Roads())
      ensures board.Sites() == old(board.Sites())[n - 1 := Site(Some(Settlement(this)), None, true)]
      ensures resources == Pay(old(resources), SettlementCost()) && score == old(score) + 1
    {
      resources, score := Pay(resources, SettlementCost()), score + 1;
      PlaceSettlement(node, n);
    }

    /** Pays for a City, scores a point and puts the City on node n in place of what stood there. */
    method PayCity(node: Node, n: NodeId)
      requires board != null && board.Valid() && node == board.nodes[n - 1]
      modifies this`resources, this`score, node`settlement, node`city, node`occupied
      ensures board.Valid() && board.Roads() == old(board.Roads())
      ensures board.Sites() == old(board.Sites())[n - 1 := Site(None, Some(City(this)), true)]
      ensures resources == Pay(old(resources), CityCost()) && score == old(score) + 1
    {
      resources, score := Pay(resources, CityCost()), score + 1;
      node.SetCity(City(this));
      board.SiteChanged(n - 1);
    }

    /** Marks pathway e occupied, stores a road record on it and makes this player its owner. */
    method PlaceRoad(pathway: Pathway, e: PathId)
      requires board != null && board.Valid() && pathway == board.pathways[e - 1]
      modifies pathway`occupied, pathway`hasPath, pathway`owner
      ensures board.Valid() && board.Sites() == old(board.Sites())
      ensures board.Roads() == old(board.Roads())[e - 1 := Road(true, Some(this))]
      ensures board.RoadRecords() == old(board.RoadRecords())[e - 1 := true]
    {
      pathway.SetOccupied(true);
      pathway.SetPath();
      pathway.SetPlayer(this);
      board.RoadChanged(e - 1);
    }

    /** Pays for a road and builds it on pathway e. */
    method PayRoad(pathway: Pathway, e: PathId)
      requires board != null && board.Valid() && pathway == board.pathways[e - 1]
      modifies this`resources, pathway`occupied, pathway`hasPath, pathway`owner
      ensures board.Valid() && board.Sites() == old(board.Sites())
      ensures board.Roads() == old(board.Roads())[e - 1 := Road(true, Some(this))]
      ensures board.RoadRecords() == old(board.RoadRecords())[e - 1 := true] && resources == Pay(old(resources), PathwayCost())
    {
      resources := Pay(resources, PathwayCost());
      PlaceRoad(pathway, e);
    }

    /**
     * The checks building a Settlement on node nodeNum makes, in order: the
     * node exists, is free, the cost is held, no neighbour is occupied, and
     * one of the node's pathways is this player's road. Nothing is changed.
     */
    method SettlementCheck(nodeNum: int) returns (r: Status)
      requires board != null && board.Valid()
      ensures r == BuildSettlementOutcome(resources, board.Sites(), board.Roads(), this, nodeNum)
      ensures !r.Ok? ==> r.Reported?
    {
      var located := board.LocateNode(nodeNum);
      if located.None? {
        return Reported(UnknownLocation);
      }
      var node := located.value;
      if node.occupied {
        return Reported(LocationOccupied);
      }
      SettlementCostAsChecked(resources);
      if resources.At(Lumber) < 1 || resources.At(Brick) < 1 || resources.At(Grain) < 1 || resources.At(Wool) < 1 {
        return Reported(InsufficientResources);
      }
      assert board.NodeInPlace(nodeNum - 1);
      NeighborSlots(board.Sites(), nodeNum, node.neighbors);
      PathwaySlots(board.Roads(), this, nodeNum, node.pathways);
      var taken := NeighborTaken(nodeNum);
      if taken {
        return Reported(DistanceRule);
      }
      var connected := PathwayConnected(nodeNum);
      if !connected {
        return Reported(NoConnectedRoad);
      }
      r := Ok(());
    }

    /**
     * Builds a Settlement on node nodeNum. Only when every check passes is
     * the cost paid, the Settlement placed and a point scored; a failed check
     * is reported and changes nothing.
     */
    method BuildSettlement(nodeNum: int) returns (r: Status)
      requires board != null && board.Valid()
      modifies this`resources, this`score, board.nodes`settlement, board.nodes`city, board.nodes`occupied
      ensures board.Valid() && board.Roads() == old(board.Roads())
      ensures r == BuildSettlementOutcome(old(resources), old(board.Sites()), old(board.Roads()), this, nodeNum)
      ensures r.Ok? ==> resources == Pay(old(resources), SettlementCost()) && score == old(score) + 1
                        && board.Sites() == old(board.Sites())[nodeNum - 1 := Site(Some(Settlement(this)), None, true)]
      ensures !r.Ok? ==> r.Reported? && resources == old(resources) && score == old(score) && board.Sites() == old(board.Sites())
    {
      r := SettlementCheck(nodeNum);
      if r.Ok? {
        PaySettlement(board.LocateNode(nodeNum).value, nodeNum);
      }
    }

    /** The checks building a road on pathway pathNum makes: free, affordable, and connected at either end. */
    method PathwayCheck(pathNum: PathId) returns (r: Status)
      requires board != null && board.Valid()
      ensures r == BuildPathwayOutcome(resources, board.Roads(), this, pathNum)
      ensures !r.Ok? ==> r.Reported?
    {
      var pathway := board.LocatePathway(pathNum);
      if pathway.occupied {
        return Reported(LocationOccupied);
      }
      PathwayCostAsChecked(resources);
      if resources.At(Lumber) < 1 || resources.At(Brick) < 1 {
        return Reported(InsufficientResources);
      }
      assert board.PathwayInPlace(pathNum - 1);
      var node1 := board.LocateNode(pathway.node1).value;
      var node2 := board.LocateNode(pathway.node2).value;
      assert board.NodeInPlace(pathway.node1 - 1) && board.NodeInPlace(pathway.node2 - 1);
      var canBuild := OwnedRoadAmong(node1.pathways);
      if !canBuild {
        canBuild := OwnedRoadAmong(node2.pathways);
      }
      r := if canBuild then Ok(()) else Reported(NoConnectedRoad);
    }

    /**
     * Builds a road on pathway pathNum. A free pathway and the cost held
     * are checked first, and the cost is paid before the connection check:
     * without an own road at either end the payment is kept and nothing is built.
     */
    method BuildPathway(pathNum: int) returns (r: Status)
      requires board != null && board.Valid() && 1 <= pathNum <= 72
      modifies this`resources, board.pathways`occupied, board.pathways`hasPath, board.pathways`owner
      ensures board.Valid() && board.Sites() == old(board.Sites())
      ensures r == BuildPathwayOutcome(old(resources), old(board.Roads()), this, pathNum)
      ensures r.Ok? ==> board.Roads() == old(board.Roads())[pathNum - 1 := Road(true, Some(this))]
                        && board.RoadRecords() == old(board.RoadRecords())[pathNum - 1 := true]
      ensures !r.Ok? ==> r.Reported? && board.Roads() == old(board.Roads()) && board.RoadRecords() == old(board.RoadRecords())
      ensures resources == if r.Ok? || r == Reported(NoConnectedRoad) then Pay(old(resources), PathwayCost()) else old(resources)
    {
      r := PathwayCheck(pathNum);
      if r.Ok? {
        PayRoad(board.LocatePathway(pathNum), pathNum);
      } else if r == Reported(NoConnectedRoad) {
        resources := Pay(resources, PathwayCost());
      }
    }

    /**
     * Turns the Settlement on node nodeNum into a City of this player's,
     * paying the cost and scoring a point. Who owned the Settlement is not
     * looked at.
     */
    method UpgradeToCity(nodeNum: NodeId) returns (r: Status)
      requires board != null && board.Valid()
      modifies this`resources, this`score, board.nodes`settlement, board.nodes`city, board.nodes`occupied
      ensures board.Valid() && board.Roads() == old(board.Roads())
      ensures r == UpgradeOutcome(old(resources), old(board.Sites()), nodeNum)
      ensures r.Ok? ==> resources == Pay(old(resources), CityCost()) && score == old(score) + 1
                        && board.Sites() == old(board.Sites())[nodeNum - 1 := Site(None, Some(City(this)), true)]
      ensures !r.Ok? ==> r.Thrown? && resources == old(resources) && score == old(score) && board.Sites() == old(board.Sites())
    {
      var node := board.LocateNode(nodeNum).value;
      if node.city.Some? || node.settlement.None? {
        return Thrown(CannotUpgrade);
      }
      CityCostAsChecked(resources);
      if resources.At(Grain) < 2 || resources.At(Ore) < 3 {
        return Thrown(InsufficientResources);
      }
      PayCity(node, nodeNum);
      r := Ok(());
    }

    // -------------------------------------------------------------------
    // Production

    /**
     * The card of terrain t, created from its name if it has none yet: the
     * card of the terrain's kind, or none for the Desert.
     */
    method TerrainCard(terrain: Terrain, t: TerrainId) returns (c: Option<ResourceCard>)
      requires board != null && board.Valid() && terrain == board.terrains[t - 1]
      modifies terrain`card
      ensures board.Valid() && board.Sites() == old(board.Sites()) && board.Roads() == old(board.Roads())
      ensures c.Some? <==> TerrainKind(t).Some?
      ensures c.Some? ==> c.value == KindCard(TerrainKind(t).value)
    {
      assert board.TerrainInPlace(t - 1);
      BoardTerrainCards(t);
      c := terrain.GetCard();
      board.TerrainChanged(t - 1);
    }

    /**
     * Takes the card of terrain t and, when there is one, adds n cards of its
     * kind: one for a Settlement, two for a City.
     */
    method CollectCards(terrain: Terrain, t: TerrainId, n: int)
      requires board != null && board.Valid() && terrain == board.terrains[t - 1] && (n == 1 || n == 2)
      modifies this`resources, terrain`card
      ensures board.Valid() && board.Sites() == old(board.Sites()) && board.Roads() == old(board.Roads())
      ensures resources == if TerrainKind(t).Some? then Credit(old(resources), TerrainKind(t).value, n) else old(resources)
    {
      var card := TerrainCard(terrain, t);
      if card.Some? {
        if n == 1 {
          ObtainResourceCard(card.value);
        } else {
          ReceiveTwoResourceCards(card.value);
        }
      }
    }

    /** One pass of the payout loop: the i-th terrain around node, if any, pays one card. */
    method CollectIncomeAt(node: Node, i: nat, ghost start: Ledger)
      requires board != null && board.Valid() && i < 3
      requires resources == SettlementIncome(start, node.terrains[..if i < |node.terrains| then i else |node.terrains|])
      modifies this`resources, board.terrains`card
      ensures board.Valid() && board.Sites() == old(board.Sites()) && board.Roads() == old(board.Roads())
      ensures resources == SettlementIncome(start, node.terrains[..if i + 1 < |node.terrains| then i + 1 else |node.terrains|])
    {
      var t: Option<TerrainId> := node.TerrainAt(i);
      if t.Some? {
        SettlementIncomeStep(start, node.terrains, i);
        CollectCards(board.LocateTerrain(t.value - 1), t.value, 1);
      }
    }

    /**
     * What a new Settlement on node nodeNum pays out: one card for each of the
     * node's first three terrains that has a card. An unknown node is an error.
     */
    method DistributeResourcesAfterSettlement(nodeNum: int) returns (r: Status)
      requires board != null && board.Valid()
      modifies this`resources, board.terrains`card
      ensures board.Valid() && board.Sites() == old(board.Sites()) && board.Roads() == old(board.Roads())
      ensures r == if 1 <= nodeNum <= 54 then Ok(()) else Thrown(UnknownLocation)
      ensures r.Ok? ==> resources == SettlementIncome(old(resources), NodeTerrains(nodeNum))
      ensures !r.Ok? ==> resources == old(resources)
    {
      var located := board.LocateNode(nodeNum);
      if located.None? {
        return Thrown(UnknownLocation);
      }
      var node := located.value;
      assert board.NodeInPlace(nodeNum - 1);
      NodeDegrees(nodeNum);
      ghost var ts := node.terrains;
      ghost var start := resources;
      for i := 0 to 3
        invariant board.Valid() && board.Sites() == old(board.Sites()) && board.Roads() == old(board.Roads())
        invariant resources == SettlementIncome(start, ts[..if i < |ts| then i else |ts|])
      {
        CollectIncomeAt(node, i, start);
      }
      assert ts[..|ts|] == ts;
      r := Ok(());
    }

    /** What node n pays this player for a roll: one card for a Settlement, two for a City, none otherwise. */
    method ShareAt(n: NodeId) returns (share: int)
      requires board != null && board.Indexed()
      ensures share == SiteYield(board.Sites()[n - 1], this)
    {
      var node := board.LocateNode(n).value;
      share := 0;
      if node.occupied {
        if node.settlement.Some? && IdentifyOwner(node.settlement.value) == Ok(this) {
          share := 1;
        } else if node.city.Some? && IdentifyOwner(node.city.value) == Ok(this) {
          share := 2;
        }
      }
    }

    /** Node n of terrain t pays this player its share of t's kind: one card for a Settlement, two for a City. */
    method CollectAtNode(terrain: Terrain, t: TerrainId, n: NodeId)
      requires board != null && board.Valid() && terrain == board.terrains[t - 1] && TerrainKind(t).Some?
      modifies this`resources, terrain`card
      ensures board.Valid() && board.Sites() == old(board.Sites()) && board.Roads() == old(board.Roads())
      ensures resources == Credit(old(resources), TerrainKind(t).value, SiteYield(board.Sites()[n - 1], this))
    {
      var share := ShareAt(n);
      if share != 0 {
        CollectCards(terrain, t, share);
      }
    }

    /**
     * Terrain t pays this player for a roll: when its number is the roll,
     * each of its nodes holding this player's Settlement adds one card of its
     * kind and each holding this player's City two.
     */
    method CollectFrom(terrain: Terrain, t: TerrainId, roll: int)
      requires board != null && board.Valid() && terrain == board.terrains[t - 1] && 2 <= roll <= 12
      modifies this`resources, terrain`card
      ensures board.Valid() && board.Sites() == old(board.Sites()) && board.Roads() == old(board.Roads())
      ensures resources == Produce(old(resources), board.Sites(), this, roll, t)
    {
      assert board.TerrainInPlace(t - 1);
      if terrain.terrainNum != roll {
        return;
      }
      RolledTerrainProduces(t, roll);
      var k := TerrainKind(t).value;
      ghost var sites := board.Sites();
      ghost var start := resources;
      var ns := terrain.nodes;
      for j := 0 to |ns|
        invariant board.Valid() && board.Sites() == sites && board.Roads() == old(board.Roads())
        invariant resources == Credit(start, k, NodesYield(sites, this, ns[..j]))
      {
        ghost var mid := resources;
        CollectAtNode(terrain, t, ns[j]);
        YieldStep(start, k, sites, this, ns, j, mid, resources);
      }
      assert ns[..|ns|] == ns;
    }

    // -------------------------------------------------------------------
    // Initial placement

    /**
     * Places this player's first Settlement on node nodeNum, which must exist
     * and be free; the distance rule is not checked. The node's terrains then
     * pay out and a point is scored.
     */
    method EstablishInitialSettlement(nodeNum: int) returns (r: Status)
      requires board != null && board.Valid()
      modifies this`resources, this`score, board.nodes`settlement, board.nodes`city, board.nodes`occupied, board.terrains`card
      ensures board.Valid() && board.Roads() == old(board.Roads())
      ensures r == InitialSettlementOutcome(old(board.Sites()), nodeNum)
      ensures r.Ok? ==> board.Sites() == old(board.Sites())[nodeNum - 1 := Site(Some(Settlement(this)), None, true)]
                        && resources == SettlementIncome(old(resources), NodeTerrains(nodeNum)) && score == old(score) + 1
      ensures !r.Ok? ==> r.Thrown? && resources == old(resources) && score == old(score) && board.Sites() == old(board.Sites())
    {
      var located := board.LocateNode(nodeNum);
      if located.None? {
        return Thrown(UnknownLocation);
      }
      var node := located.value;
      if node.occupied {
        return Thrown(LocationOccupied);
      }
      SettleInitially(node, nodeNum);
      r := Ok(());
    }

    /** The effect of a first Settlement on node n: it is placed, its terrains pay out and a point is scored. */
    method SettleInitially(node: Node, n: NodeId)
      requires board != null && board.Valid() && node == board.nodes[n - 1]
      modifies this`resources, this`score, node`settlement, node`city, node`occupied, board.terrains`card
      ensures board.Valid() && board.Roads() == old(board.Roads())
      ensures board.Sites() == old(board.Sites())[n - 1 := Site(Some(Settlement(this)), None, true)]
      ensures resources == SettlementIncome(old(resources), NodeTerrains(n)) && score == old(score) + 1
    {
      PlaceInitialSettlement(node, n);
      var paid := DistributeResourcesAfterSettlement(n);
      score := score + 1;
    }

    /** Puts a new Settlement of this player's on node n and sets the node occupied once more. */
    method PlaceInitialSettlement(node: Node, n: NodeId)
      requires board != null && board.Valid() && node == board.nodes[n - 1]
      modifies node`settlement, node`city, node`occupied
      ensures board.Valid() && board.Roads() == old(board.Roads())
      ensures board.Sites() == old(board.Sites())[n - 1 := Site(Some(Settlement(this)), None, true)]
    {
      node.SetSettlement(Settlement(this));
      node.SetOccupied(true);
      board.SiteChanged(n - 1);
    }

    /**
     * Places this player's first road on pathway pathNum: one of its ends
     * must hold this player's Settlement. The pathway's own state is not
     * looked at, so an occupied pathway is taken over.
     */
    method EstablishInitialPathway(pathNum: PathId) returns (r: Status)
      requires board != null && board.Valid()
      modifies board.pathways`occupied, board.pathways`hasPath, board.pathways`owner
      ensures board.Valid() && board.Sites() == old(board.Sites())
      ensures r == InitialPathwayOutcome(old(board.Sites()), this, pathNum)
      ensures r.Ok? ==> board.Roads() == old(board.Roads())[pathNum - 1 := Road(true, Some(this))]
                        && board.RoadRecords() == old(board.RoadRecords())[pathNum - 1 := true]
      ensures !r.Ok? ==> board.Roads() == old(board.Roads()) && board.RoadRecords() == old(board.RoadRecords())
    {
      var pathway := board.LocatePathway(pathNum);
      assert board.PathwayInPlace(pathNum - 1);
      var node1 := board.LocateNode(pathway.node1).value;
      var node2 := board.LocateNode(pathway.node2).value;
      if (node1.occupied && node1.settlement.Some? && IdentifyOwner(node1.settlement.value) == Ok(this))
         || (node2.occupied && node2.settlement.Some? && IdentifyOwner(node2.settlement.value) == Ok(this))
      {
        PlaceRoad(pathway, pathNum);
        r := Ok(());
      } else {
        r := Thrown(NoConnectedSettlement);
      }
    }

    // -------------------------------------------------------------------
    // Rolling

    /**
     * The discard on a seven. This player halves the hand once if some kind
     * is above seven. Each other player looks at the kinds in ledger order
     * and halves the hand whenever the kind reached is above seven.
     */
    method DiscardResourceCards()
      requires OthersApart()
      modifies this`resources, others`resources
      ensures RollerDiscard(old(resources), resources)
      ensures forall i | 0 <= i < |others| :: DiscardChain(old(others[i].resources), others[i].resources, LedgerOrder)
      ensures board != null ==> board.Valid() == old(board.Valid()) && board.Sites() == old(board.Sites()) && board.Roads() == old(board.Roads())
    {
      DiscardOwnHand();
      DiscardOthersHands();
    }

    /** This player's half of the discard: the hand is halved once if some kind is above seven. */
    method DiscardOwnHand()
      modifies this`resources
      ensures RollerDiscard(old(resources), resources)
    {
      var discarded := false;
      for i := 0 to |LedgerOrder|
        invariant !discarded && resources == old(resources)
        invariant forall j | 0 <= j < i :: resources.At(LedgerOrder[j]) <= 7
      {
        if resources.At(LedgerOrder[i]) > 7 {
          assert NeedsDiscard(resources);
          resources := ReduceResourceCards(resources);
          discarded := true;
          break;
        }
      }
      if !discarded {
        forall k: Resource ensures resources.At(k) <= 7 {
          assert LedgerOrder[LedgerIndex(k)] == k;
        }
      }
    }

    /** The other players' half of the discard, one player at a time; this player's hand is untouched. */
    method DiscardOthersHands()
      requires OthersApart()
      modifies others`resources
      ensures resources == old(resources)
      ensures forall i | 0 <= i < |others| :: DiscardChain(old(others[i].resources), others[i].resources, LedgerOrder)
    {
      ghost var before := LedgersOf(others);
      for i := 0 to |others|
        invariant resources == old(resources)
        invariant forall j | 0 <= j < i :: DiscardChain(before[j], others[j].resources, LedgerOrder)
        invariant forall j | i <= j < |others| :: others[j].resources == before[j]
      {
        var player := others[i];
        player.resources := DiscardOverloaded(player.resources);
      }
    }

    /** Every terrain, in id order, pays this player for a roll. */
    method HarvestTerrains(roll: int)
      requires board != null && board.Valid() && 2 <= roll <= 12
      modifies this`resources, board.terrains`card
      ensures board.Valid() && board.Sites() == old(board.Sites()) && board.Roads() == old(board.Roads())
      ensures resources == Harvest(old(resources), board.Sites(), this, roll, 19)
    {
      ghost var sites := board.Sites();
      for i := 0 to 19
        invariant board.Valid() && board.Sites() == sites && board.Roads() == old(board.Roads())
        invariant resources == Harvest(old(resources), sites, this, roll, i)
      {
        CollectFrom(board.LocateTerrain(i), i + 1, roll);
      }
    }

    /** What a roll of rollTotal does to the hands: the discard on a seven, the harvest otherwise. */
    method ResolveRoll(rollTotal: int)
      requires 2 <= rollTotal <= 12 && board != null && board.Valid() && OthersApart()
      modifies this`resources, others`resources, board.terrains`card
      ensures board.Valid() && board.Sites() == old(board.Sites()) && board.Roads() == old(board.Roads())
      ensures RollEffect(rollTotal, old(resources), old(LedgersOf(others)), board.Sites(), this, resources, LedgersOf(others))
    {
      if rollTotal == 7 {
        DiscardResourceCards();
      }
      ghost var mid := resources;
      HarvestTerrains(rollTotal);
      if rollTotal == 7 {
        HarvestOnSeven(mid, board.Sites(), this, 19);
      }
    }

    /** Ends this player's turn and starts the next player's; no hand and nothing on the board changes. */
    method PassTurn()
      requires board != null && nextPlayer != null
      modifies this`turnActive, nextPlayer`turnActive
      ensures nextPlayer.turnActive && (nextPlayer != this ==> !turnActive)
      ensures resources == old(resources) && LedgersOf(others) == old(LedgersOf(others))
      ensures board.Sites() == old(board.Sites()) && board.Roads() == old(board.Roads())
      ensures board.Valid() == old(board.Valid())
    {
      turnActive := false;
      nextPlayer.ActivateTurn(true);
    }

    /**
     * One turn's roll of roll1 and roll2. Out of turn it is an error. A seven
     * makes every hand above seven of a kind be halved first; then every
     * terrain numbered with the total pays, in id order; then the turn
     * passes to the next player. The total is returned.
     */
    method RollDiceAndMove(roll1: int, roll2: int) returns (r: Outcome<int>)
      requires 1 <= roll1 <= 6 && 1 <= roll2 <= 6
      requires board != null && board.Valid() && nextPlayer != null && OthersApart()
      modifies this`resources, this`turnActive, others`resources, nextPlayer`turnActive, board.terrains`card
      ensures board.Valid() && board.Sites() == old(board.Sites()) && board.Roads() == old(board.Roads())
      ensures !old(turnActive) ==> r == Thrown(NotCurrentTurn) && resources == old(resources) && turnActive == old(turnActive)
                                   && nextPlayer.turnActive == old(nextPlayer.turnActive)
                                   && LedgersOf(others) == old(LedgersOf(others))
      ensures old(turnActive) ==> r == Ok(roll1 + roll2) && nextPlayer.turnActive && (nextPlayer != this ==> !turnActive)
                                  && RollEffect(roll1 + roll2, old(resources), old(LedgersOf(others)), board.Sites(), this,
                                                resources, LedgersOf(others))
    {
      if !turnActive {
        return Thrown(NotCurrentTurn);
      }
      var rollTotal := roll1 + roll2;
      ResolveRoll(rollTotal);
      PassTurn();
      r := Ok(rollTotal);
    }
  }

  /** No node has more than three neighbours, so the first three slots of its list are all of them. */
  lemma NeighborSlots(sites: seq<Site>, n: NodeId, around: seq<NodeId>)
    requires |sites| == 54 && around == Neighbors(n)
    ensures NeighborOccupied(sites, n) <==> SlotOccupied(sites, around)
  {
    NodeDegrees(n);
  }

  /** No node has more than three pathways, so the first three slots of its list are all of them. */
  lemma PathwaySlots(roads: seq<Road>, p: PlayerId, n: NodeId, around: seq<PathId>)
    requires |roads| == 72 && around == NodePathways(n)
    ensures OwnsRoadAmong(roads, p, NodePathways(n)) <==> SlotOwned(roads, p, around)
  {
    NodeDegrees(n);
  }

  /** Under valid holdings no card object is held three times, so the third-Knight bonus never applies. */
  lemma KnightBonusUnreachable(m: map<DevCard, int>, card: DevCard)
    requires forall c | c in m :: 0 <= m[c] <= 1
    ensures HeldCount(m, card) != 3
  {
  }
}
