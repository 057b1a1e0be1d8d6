# Settlement game rule engine, modelled in Dafny

This project models the rule engine of a Catan-style board game and proves
properties of it. The model has three parts:

- **The board.** A fixed arena of 54 nodes, 72 pathways and 19 terrains, wired
  by the constructor's tables. It also holds the shared deck of development
  cards.
- **Ownership and card tags.** Settlements, Cities and roads with their owners,
  the five resource-card kinds and the five development-card kinds.
- **The player.** A resource ledger, a score, a turn flag, development-card
  holdings keyed by card object, and every rule-checked action: building a
  Settlement, a road or a City; the initial placements; the dice roll with
  production, discarding on a seven and turn passing; trading; and buying and
  playing development cards.

Each source file becomes one module:

| module | file | form |
|---|---|---|
| `Outcomes` | outcomes.dfy | `Option`, the failure reasons, and `Outcome = Ok \| Reported \| Thrown`, for actions that print and return and actions that throw |
| `ResourceCards` | resource_cards.dfy | the five kinds, their names, and the ledger's alphabetical key order |
| `Property` | property.dfy | Settlement, City and road records as values with an optional owner |
| `Development` | development.dfy | the card kinds with supply count and type name; class `DevCard` for card identity |
| `Topology` | topology.dfy | the constructor's tables, written out literally, quirks included |
| `Nodes` | node.dfy | classes `Node` and `Pathway`, whose flags and properties change in place |
| `Terrains` | terrain.dfy | class `Terrain`, whose card is created on first use |
| `Board` | game_board.dfy | class `GameBoard`: construction, lookups and the deck draw |
| `Rules` | rules.dfy | the rules stated on values: costs, outcomes of each action, production, discarding, trade, Monopoly and Year of Plenty |
| `Players` | player.dfy | class `Player`: every action as a method, proved to end as `Rules` says |

Cross references are ids, not pointers. A node lists the ids of its pathways,
terrains and neighbours, and the board resolves an id to its object.

A player's ledger is a record of five counts, one per kind. The source's
`std::map<std::string, int>` starts with exactly those five keys, and it is
walked in alphabetical order: Brick, Grain, Lumber, Ore, Wool. Every modelled
operation keeps the map at those five keys. In the source, only a trade or a
card that names some other resource adds a key, and this model leaves that
out (see "Left out").

Where the code departs from the game's rules as they are meant, the model
follows the code and proves the difference as a lemma:

- `buildPathway` takes the cost before it checks for a connected road, so an
  unconnected road is paid for and not built
  (`Rules.FirstRoadNeedsInitialPlacement`).
- `upgradeToCity` never checks who owns the Settlement, so any player's
  Settlement can be upgraded (`Rules.UpgradeIgnoresOwner`).
- The discard on a seven starts when a single kind is above seven, not the
  whole hand. Another player can be halved more than once, once for each kind
  reached that is still above seven (`Rules.DiscardOverloaded`,
  `Players.Player.DiscardResourceCards`).
- `establishInitialPathway` accepts only an own Settlement at an end, not an
  own road. It does not look at whether the pathway is occupied, so it can take
  over another player's road (`Players.Player.EstablishInitialPathway`).
- `establishInitialSettlement` skips the distance rule, so two neighbouring
  nodes can both be taken (`Rules.InitialPlacementIgnoresDistance`).

Randomness is a parameter or a nondeterministic choice. The dice are the two
arguments of `RollDiceAndMove`. The kind discarded, the deck kind drawn and the
held card picked are chosen with `:|`, and the contracts hold for every choice.

## Model

| member | source | states |
|---|---|---|
| ResourceCards.GetType | src/ResourceCard.cpp:6-45 | a default card reports "Unknown"; each kind card reports its kind's name |
| ResourceCards.ParseResource | src/ResourceCard.cpp:18-45 | inverse of the card names: a found kind has exactly that name, and no kind has a name that is not found |
| ResourceCards.LedgerOrderIsMapOrder | src/Player.cpp:21 | the ledger's walk order lists every kind exactly once, and the names strictly ascend as `std::map` orders them |
| ResourceCards.ResourceNamesDistinct | src/ResourceCard.cpp:18-45 | two kinds share a name iff they are the same kind, and no kind is called "Unknown" |
| ResourceCards.CardTypeIsLedgerKey | src/Player.cpp:171-174 | a kind card's type is exactly its kind's ledger key; an "Unknown" card names no key |
| Property.IdentifyOwner | src/Property.cpp:18-23 | returns the owner iff one was assigned; otherwise it is the thrown NoOwner error |
| Property.AssignOwner | src/Property.cpp:13-15 | afterwards the owner is the one given; kind and category are kept |
| Property.RetrieveCategory | src/Property.cpp:38-40 | no contract of its own: returns the stored category. What each constructor stores is stated by DefaultProperty, Settlement, City and Path, and AssignOwner keeps it |
| Property.DefaultProperty | src/Property.cpp:7 | a default property has no owner, so asking for one throws, and its category is empty |
| Property.Settlement | src/Property.cpp:29-32 | owner p and category "Village" |
| Property.City | src/Property.cpp:46-49 | owner p and category "City" |
| Property.Path | src/Property.cpp:63-66 | owner p and category "Pathway" |
| Property.LastAssignmentWins | src/Property.cpp:13-15 | assigning twice is the same as assigning the second owner only |
| Property.CategoriesDistinct | src/Property.cpp:29-74 | the three owned constructors give three distinct categories |
| Development.ParseDevKind | src/Development.cpp:23-89 | inverse of the card type names |
| Development.CardTypesDistinct | src/Development.cpp:23-89 | the five type names are pairwise distinct, and parsing a name gives its kind back |
| Development.CardType | src/Player.cpp:98-152 | each type string the effect dispatch compares against is the type name of exactly one kind, in both directions |
| Development.CardCount | src/Development.cpp:15-81 | every kind's supply count is positive |
| Development.SupplyCounts | src/Development.cpp:15-81 | supply counts 100, 4, 100, 100, 3, all positive |
| Development.DeckOrderComplete | src/GameBord.cpp:855-866 | the deck is seeded with each kind exactly once |
| Development.DevCard.GetCardCount | src/Development.cpp:15-81 | a card's count is 4 iff it is a Victory Point, 3 iff it is a Knight, and 100 iff it is any other kind |
| Development.DevCard.TypeName | src/Development.cpp:23-89 | a card's type name parses back to the card's kind |
| Development.DevCard.CloneCard | src/Development.cpp:19-21 | a fresh card of the same kind, with the same type name and count |
| Topology.NeighborsSymmetric | src/GameBord.cpp:504-700 | b is a neighbour of a iff a is a neighbour of b, for all 54 × 54 pairs |
| Topology.NodeDegrees | src/GameBord.cpp:205-700 | every node has 2 or 3 neighbours, at most 3 pathways and between 1 and 3 terrains |
| Topology.TerrainKind | src/GameBord.cpp:163-181 | a terrain produces nothing iff it is the Desert (terrain 8); any other terrain produces the kind whose name it was built with |
| Topology.TerrainSize | src/GameBord.cpp:463-501 | every terrain lists exactly six nodes |
| Topology.TerrainNumbers | src/GameBord.cpp:184-202 | the Desert (terrain 8) is numbered 0 and produces nothing; every other terrain produces a kind and has a number in [2, 12] other than 7 |
| Topology.RolledTerrainProduces | src/GameBord.cpp:184-202 | a roll in [2, 12] matches only producing, non-Desert terrains, and never on a 7 |
| Topology.TableQuirks | src/GameBord.cpp:106-469 | pathway 18 joins node 16 to itself; pathways 39 and 40 both join 31 and 32; node 21 lists pathway 39 without being its end; terrain 7 lists node 3 but not the reverse; nodes 28 and 29 list terrains that do not list them |
| Nodes.Node.constructor | src/Node.cpp:10-12 | given id and incidence lists, nothing built, not occupied |
| Nodes.Node.AddPathway | src/Node.cpp:26-28 | the pathway is appended; earlier entries keep their places |
| Nodes.Node.AddTerrain | src/Node.cpp:31-33 | the terrain is appended; earlier entries keep their places |
| Nodes.Node.SetNeighborNode | src/Node.cpp:51-53 | the neighbour is appended; earlier entries keep their places |
| Nodes.Node.TerrainAt | src/Node.cpp:36-38 | the i-th terrain iff i is within the list; none beyond it |
| Nodes.Node.PathwayAt | src/Node.cpp:41-43 | the i-th pathway iff i is within the list; none beyond it |
| Nodes.Node.NeighborAt | src/Node.cpp:56-61 | the neighbour at the index iff the index is below the count; none otherwise |
| Nodes.Node.SetSettlement | src/Node.cpp:64-70 | afterwards the Settlement is s, there is no City and the node is occupied |
| Nodes.Node.SetCity | src/Node.cpp:73-79 | afterwards the City is c, there is no Settlement and the node is occupied |
| Nodes.Node.SetOccupied | src/Node.cpp:87-89 | only the flag changes, so a node may be occupied with nothing on it |
| Nodes.Pathway.constructor | src/Node.cpp:116-120 | the given id and ends, unoccupied, no owner, no road record; the ends are constants |
| Nodes.Pathway.SetPath | src/Node.cpp:138-141 | a road record is stored and the pathway becomes occupied; the owner is kept |
| Nodes.Pathway.SetPlayer | src/Node.cpp:159-161 | reading the owner back gives p; the flag is kept |
| Nodes.Pathway.SetOccupied | src/Node.cpp:174-176 | reading the flag back gives b; the owner is kept |
| Terrains.ConstructorCard | src/Terrain.cpp:9-21 | a card exists iff the word is forest, pasture, hill, mountain or field |
| Terrains.NamedCard | src/Terrain.cpp:63-78 | a card exists iff the name is a resource name, and the card's type is that name |
| Terrains.BoardTerrainCards | src/Terrain.cpp:6-80 | board terrains, named by resource, get no card from the constructor; on demand each gets the card of its kind, and only the Desert gets none |
| Terrains.Terrain.constructor | src/Terrain.cpp:6-22 | name and id as given, the constructor's card, no nodes |
| Terrains.Terrain.GetCard | src/Terrain.cpp:58-80 | an existing card is returned unchanged; otherwise the card is created from the name and kept, so later calls return the same card |
| Terrains.Terrain.SetTerrainNum | src/Terrain.cpp:88-90 | reading the number back gives n |
| Terrains.Terrain.SetNodes | src/Terrain.cpp:43-45 | reading the nodes back gives ns |
| Board.SeededDeck | src/GameBord.cpp:855-866 | every kind is present at its supply count, and none is negative |
| Board.AvailableKinds | src/GameBord.cpp:921-926 | a kind is listed iff its count is positive |
| Board.MakeNode | src/GameBord.cpp:205-700 | a new node wired as table entry i, with its neighbours appended in table order and nothing built |
| Board.BuildNodes | src/GameBord.cpp:704-757 | 54 new nodes in id order, each wired as its table entry and empty |
| Board.BuildPathways | src/GameBord.cpp:89-160 | 72 new pathways in id order, each between its table ends and empty |
| Board.MakeTerrain | src/GameBord.cpp:163-202 | a new terrain with its table name, number and nodes, and no card yet |
| Board.BuildTerrains | src/GameBord.cpp:834-852 | 19 new terrains in id order, each as its table entry |
| Board.GameBoard.constructor | src/GameBord.cpp:22-866 | a valid board: every node and pathway unoccupied with nothing on it, no terrain card yet, and the seeded deck |
| Board.GameBoard.LocateNode | src/GameBord.cpp:893-897 | the node with that id iff the id is in [1, 54]; none otherwise |
| Board.GameBoard.LocatePathway | src/GameBord.cpp:900-903 | the pathway with that id, for an id in [1, 72] |
| Board.GameBoard.LocateTerrain | src/GameBord.cpp:905-907 | the terrain at that 0-based position, whose id is one more |
| Board.GameBoard.DrawRandomDevCard | src/GameBord.cpp:916-936 | none, with the deck unchanged, iff every count is zero; otherwise a new card of a kind that had cards, whose count alone drops by one |
| Board.GameBoard.TakeFromDeck | src/GameBord.cpp:934 | one card of kind k leaves the deck; the deck stays valid |
| Board.SeededDeckNotEmpty | src/GameBord.cpp:855-866 | a freshly seeded deck has cards of every kind |
| Rules.ZeroLedger | src/Player.cpp:21 | a new ledger holds zero of every kind |
| Rules.SumOfLedgerOrder | src/Player.cpp:481-484 | adding the counts in the ledger's walk order gives the total |
| Rules.Credit | src/Player.cpp:171-180 | the one kind changes by n; every other kind is unchanged |
| Rules.Pay | src/Player.cpp:354-357 | each kind drops by exactly its cost |
| Rules.SettlementCostAsChecked | src/Player.cpp:317-357 | affording a Settlement is the source's test on Lumber, Brick, Grain and Wool, and paying takes four cards |
| Rules.PathwayCostAsChecked | src/Player.cpp:260-266 | affording a road is the test on Lumber and Brick, and paying takes two cards |
| Rules.CityCostAsChecked | src/Player.cpp:370-375 | affording a City is the test for 2 Grain and 3 Ore, and paying takes five cards |
| Rules.DevelopmentCostAsChecked | src/Player.cpp:52-60 | affording a card is the test on Grain, Ore and Wool, and paying takes three cards |
| Rules.SimplifyResourceName | src/Player.cpp:87-94 | a name that changes was a kind name plus "Card" and becomes that kind name; a kind name is kept |
| Rules.SimplifyIdempotent | src/Player.cpp:87-94 | simplifying twice is simplifying once; "LumberCard" and the like map to their kind |
| Rules.BeforeIsLedgerOrder | src/Player.cpp:102 | alphabetical order of the keys is the order the ledger is walked in |
| Rules.LeastHeldUnique | src/Player.cpp:99-108 | the least-held kind, ties going alphabetically, is unique |
| Rules.LeastHeldKind | src/Player.cpp:99-108 | the walk keeping the first strictly smaller count returns the least-held kind, ties going alphabetically |
| Rules.TwoLeastHeldKinds | src/Player.cpp:121-136 | the two kinds returned are distinct: the least held, then the least held among the other four, ties going alphabetically |
| Rules.CountCards | src/Player.cpp:481-484 | the loop's sum is the ledger's total |
| Rules.KindsHeld | src/Player.cpp:488-494 | the kinds with cards, each listed once |
| Rules.ReduceResourceCards | src/Player.cpp:480-515 | with more than seven cards, the total becomes half (rounded down); no count rises, and none is pushed below zero; with seven or fewer nothing changes |
| Rules.DiscardOne | src/Player.cpp:500-513 | one pass takes exactly one card from a listed kind, and the list still holds exactly the kinds with cards left |
| Rules.HalvedNeverRaises | src/Player.cpp:480-515 | halving never raises a count or the total, and strictly lowers a total above seven |
| Rules.DiscardChainNeverRaises | src/Player.cpp:468-476 | another player's discard never raises a count, and leaves a hand with no kind above seven untouched |
| Rules.DiscardOverloaded | src/Player.cpp:469-475 | the kinds are checked in ledger order, and the hand is halved each time the count reached is above seven |
| Rules.SiteYield | src/Player.cpp:229-235 | a node pays 0, 1 or 2 cards, and pays anything only when occupied with a Settlement or City on it |
| Rules.NodesYield | src/Player.cpp:228-236 | a list of nodes pays between 0 and 2 cards per node |
| Rules.Produce | src/Player.cpp:226-237 | a terrain's payout never lowers a count, and changes only its own kind when its number is rolled |
| Rules.HarvestOnSeven | src/Player.cpp:220-238 | a rolled seven pays nothing |
| Rules.HarvestOnlyAdds | src/Player.cpp:225-238 | production never takes a card away |
| Rules.HarvestOnlyRolledKinds | src/Player.cpp:225-238 | a kind that no terrain with the rolled number produces is unchanged |
| Rules.NodesYieldWithoutProperty | src/Player.cpp:228-236 | nodes without a Settlement or City of p's pay p nothing |
| Rules.HarvestWithoutProperty | src/Player.cpp:225-238 | a player with nothing on the board gains nothing from any roll |
| Rules.ProducingCount | src/Player.cpp:390-402 | the number of producing terrains is no more than the number listed |
| Rules.SettlementIncomeTotal | src/Player.cpp:390-402 | the income is one card per producing terrain around the node, and no count falls |
| Rules.InitialIncomeBound | src/Player.cpp:424-431 | an initial Settlement earns between zero and three cards |
| Rules.Trade | src/Player.cpp:531-535 | the initiator gives amountGive and gets amountReceive, the partner the reverse, and each kind's sum over the two is kept |
| Rules.Drained | src/Player.cpp:111-112 | the drained ledger has none of kind k and the other kinds unchanged |
| Rules.KindSumZero | src/Player.cpp:110-114 | once every other player has none of the kind, their sum of it is zero |
| Rules.KindSumOthers | src/Player.cpp:110-114 | draining kind k leaves the others' sums of every other kind unchanged |
| Rules.SeizedConserves | src/Player.cpp:110-114 | a Monopoly creates and destroys no cards: every kind's total over all players is kept, and the others are left with none of the kind taken |
| Rules.SettlementKeepsDistance | src/Player.cpp:322-328 | a Settlement the rules allow keeps the distance rule, and keeps every site valid |
| Rules.FirstRoadNeedsInitialPlacement | src/Player.cpp:276-301 | without an own road on the board, a road can never be built; a free, affordable pathway is still paid for and reported unconnected |
| Rules.UpgradeIgnoresOwner | src/Player.cpp:366-372 | another player's Settlement can be upgraded; only the cost decides |
| Rules.InitialPlacementIgnoresDistance | src/Player.cpp:406-415 | initial Settlements on neighbouring nodes 1 and 2 are both accepted, which breaks the distance rule |
| Players.AfterPlay | src/Player.cpp:162-167 | the played card's count drops by one, with the entry removed at zero; every other entry is kept |
| Players.NewHoldings | src/Player.cpp:23-27 | five new cards, one of each kind, each held zero times |
| Players.Player.constructor | src/Player.cpp:19-28 | the given name, zero of every kind, no score, not on turn, no links, and one new card of each kind held zero times |
| Players.Player.CountSpecificResourceCard | src/Player.cpp:518-520 | the count of the named kind iff the name is a ledger key; otherwise a thrown error |
| Players.Player.ActivateTurn | src/Player.cpp:41-43 | the turn flag is set as given |
| Players.Player.SetNextPlayer | src/Player.cpp:555-557 | the next player is the one given |
| Players.Player.SetOtherPlayer | src/Player.cpp:560-562 | the player is appended to the others |
| Players.Player.AssignGameBoard | src/Player.cpp:565-567 | the board is the one given |
| Players.Player.ObtainResourceCard | src/Player.cpp:171-174 | exactly the card's kind rises by one |
| Players.Player.ReceiveTwoResourceCards | src/Player.cpp:177-180 | exactly the card's kind rises by two |
| Players.Player.DrawDevelopmentCard | src/Player.cpp:545-552 | none iff no card is held a positive number of times; otherwise a held card |
| Players.Player.ConductTrade | src/Player.cpp:523-542 | a self-trade throws; otherwise it succeeds iff both names simplify to kinds and both sides hold their part; success moves exactly the traded amounts, and any failure throws and changes no ledger |
| Players.Player.AcquireDevelopmentCard | src/Player.cpp:51-72 | without Grain, Ore and Wool nothing changes; otherwise they are paid even when the deck is empty; a drawn new card is held once, and its kind alone leaves the deck |
| Players.Player.PlayMonopoly | src/Player.cpp:98-116 | the least-held kind, ties going alphabetically, is taken in full from every other player and added to this player's |
| Players.Player.TakeAll | src/Player.cpp:111-113 | the other player is left with none of kind k, and this player gains what they held |
| Players.Player.SeizeFromOthers | src/Player.cpp:110-114 | every other player hands over all of kind k, and this player gains their sum |
| Players.Player.DrainOthers | src/Player.cpp:110-114 | the loop over the others drains each of them of kind k and credits their sum |
| Players.Player.PlayYearOfPlenty | src/Player.cpp:120-140 | one card each of the two least-held kinds, which are distinct |
| Players.Player.ApplyEffect | src/Player.cpp:97-159 | the effect dispatched on the type name is the one the card's kind calls for |
| Players.Player.ApplyDevelopmentCardEffect | src/Player.cpp:97-168 | the kind's effect, then the held count drops by one (the entry is removed at zero); the third-Knight bonus never fires under valid holdings |
| Players.Player.RemovePlayed | src/Player.cpp:161-167 | the held count drops by one, and no hand changes |
| Players.Player.ActivateDevelopmentCard | src/Player.cpp:75-84 | no card is reported and changes nothing; a card held zero times throws and is recorded with count zero; otherwise the effect is applied and the count lowered |
| Players.Player.NeighborTaken | src/Player.cpp:322-328 | true iff one of the first three neighbour slots holds an occupied node |
| Players.Player.PathwayConnected | src/Player.cpp:330-347 | true iff one of the first three pathway slots holds this player's occupied road |
| Players.Player.OwnedRoadAmong | src/Player.cpp:278-292 | true iff one of the listed pathways is this player's occupied road |
| Players.Player.PlaceSettlement | src/Player.cpp:359 | only node n changes, to this player's Settlement, occupied |
| Players.Player.PaySettlement | src/Player.cpp:354-361 | the cost is paid, a point is scored and the Settlement is placed |
| Players.Player.PayCity | src/Player.cpp:374-379 | the cost is paid, a point is scored and the City replaces what stood on the node |
| Players.Player.PlaceRoad | src/Player.cpp:295-297 | only pathway e changes: occupied, a road record stored, and owned by this player |
| Players.Player.PayRoad | src/Player.cpp:265-297 | the cost is paid and the road is placed |
| Players.Player.SettlementCheck | src/Player.cpp:305-352 | the checks are made in the source's order and match the rule, with nothing changed |
| Players.Player.BuildSettlement | src/Player.cpp:305-362 | the outcome is the first failed check in source order; only success pays, places the Settlement and scores; a failure is reported and changes nothing |
| Players.Player.PathwayCheck | src/Player.cpp:247-294 | free, affordable and connected at either end, checked in that order, with nothing changed |
| Players.Player.BuildPathway | src/Player.cpp:247-302 | an occupied or unaffordable pathway changes nothing; otherwise the cost is paid, and the road is built only if connected |
| Players.Player.UpgradeToCity | src/Player.cpp:365-381 | throws, changing nothing, if the node holds a City or no Settlement, or the cost is missing; otherwise the cost is paid, this player's City stands there and a point is scored |
| Players.Player.TerrainCard | src/Player.cpp:393 | the terrain's card exists iff it produces a kind, and is the card of that kind |
| Players.Player.CollectCards | src/Player.cpp:231-233 | n cards of the terrain's kind, or nothing for the Desert |
| Players.Player.CollectIncomeAt | src/Player.cpp:391-401 | one pass of the payout loop extends the income by the i-th terrain's card |
| Players.Player.DistributeResourcesAfterSettlement | src/Player.cpp:384-403 | an unknown node throws; otherwise one card for each producing terrain around the node |
| Players.Player.ShareAt | src/Player.cpp:229-235 | what the node pays this player: one for a Settlement, two for a City |
| Players.Player.CollectAtNode | src/Player.cpp:228-236 | the node's share of the terrain's kind is credited |
| Players.Player.CollectFrom | src/Player.cpp:226-237 | the terrain pays exactly its production for the roll |
| Players.Player.EstablishInitialSettlement | src/Player.cpp:406-434 | throws for an absent or occupied node; otherwise the Settlement is placed with no cost or distance check, the terrains pay out and a point is scored |
| Players.Player.SettleInitially | src/Player.cpp:417-433 | placement, payout and point, in source order |
| Players.Player.PlaceInitialSettlement | src/Player.cpp:417-420 | only node n changes, to this player's Settlement, occupied |
| Players.Player.EstablishInitialPathway | src/Player.cpp:437-456 | the road is placed iff one end holds this player's Settlement, whatever the pathway's own state; otherwise it throws, and no road or road record changes |
| Players.Player.DiscardResourceCards | src/Player.cpp:459-477 | the roller is halved once if some kind is above seven; each other player goes through the ledger-order checks |
| Players.Player.DiscardOwnHand | src/Player.cpp:460-467 | the roller is halved once if some kind is above seven, and is untouched otherwise |
| Players.Player.DiscardOthersHands | src/Player.cpp:468-476 | each other player's hand goes through the ledger-order checks; the roller's is untouched |
| Players.Player.HarvestTerrains | src/Player.cpp:225-238 | all 19 terrains pay in id order, giving the harvest |
| Players.Player.ResolveRoll | src/Player.cpp:220-238 | on a seven, the discard and nothing else; on any other total, the harvest for this player only |
| Players.Player.PassTurn | src/Player.cpp:240-241 | the next player is on turn and this one is not; no hand and nothing on the board changes |
| Players.Player.RollDiceAndMove | src/Player.cpp:205-244 | out of turn it throws and changes nothing; otherwise it returns the total, applies that roll's effect and passes the turn |
| Players.NeighborSlots | src/Player.cpp:322-328 | no node has more than three neighbours, so the three-slot loop sees all of them |
| Players.PathwaySlots | src/Player.cpp:331-347 | no node has more than three pathways, so the three-slot loop sees all of them |
| Players.KnightBonusUnreachable | src/Player.cpp:152-158 | under valid holdings no card is held three times, so the third-Knight bonus never applies |

## Left out

- Console output is left out; each printed message becomes an `Outcome` tag.
- Display methods, names and score getters, and destructors and `delete` are left out. They change no state the rules read.
- The visualizer, the demo driver and the game operator are not part of this model. The operator's implementation is not available.
- Randomness is left out as a distribution. The dice are parameters, and the other random choices are `:|` choices, so the contracts hold for every outcome.
- Rules.DiscardOne: draws its index from the current list. The source fixes the range when the loop starts, so after a kind leaves the list a later index can fall past its end. That out-of-bounds read is not modelled.
- The `int` width is left out: counts are unbounded. `IntMax` appears only as the starting minimum of the two least-held walks. As a simplification, those walks require every count to be below it. The source needs less: Monopoly's walk picks a kind once one count is below `INT_MAX`, and Year of Plenty's walk picks two once two counts are.
- Players.Player.ConductTrade: a name that is not one of the five kinds after simplification throws UnknownResource. The source does something else:
  - Its `operator[]` inserts the name with count zero, even when the trade is then refused.
  - When the unknown side's amount is at most zero, the source completes the trade. For example, `conductTrade(q, "Gold", "Brick", 0, 1)` moves one Brick from q to the caller and does not throw.
  - A key added this way takes part in the later walks of Monopoly and Year of Plenty. "Gold" sorts between Brick and Grain, and at zero it can be chosen as a least-held kind.
  - The five-count ledger cannot hold such a key.
- Players.Player.ObtainResourceCard: requires a card of one of the five kinds. The source would credit a default card under the key "Unknown" and add that key. The same holds for Players.Player.ReceiveTwoResourceCards.
- Nodes.Node.TerrainAt: an index past the end gives none. In the source that read is undefined behaviour. The same holds for Nodes.Node.PathwayAt.
- Board.GameBoard.LocatePathway: requires an id in [1, 72], because the source does no bounds check. The same holds for LocateTerrain with positions in [0, 19).
- Players.Player.UpgradeToCity: takes a node id in [1, 54]. An unknown id makes the source dereference a null node.
- Players.Player.EstablishInitialPathway: takes a pathway id in [1, 72], for the same unchecked lookup. The source's null check after it can never fire.
- Players.Player.RollDiceAndMove: requires a next player, which the source dereferences without a check.
- `OthersApart` is a precondition. It says the other players are listed once each and do not include this player.
  - These methods require it: Players.Player.PlayMonopoly, SeizeFromOthers, DrainOthers, DiscardResourceCards, DiscardOthersHands, ResolveRoll and RollDiceAndMove.
  - ActivateDevelopmentCard, ApplyEffect and ApplyDevelopmentCardEffect require it only for a Monopoly card.
  - For Year of Plenty and Road Building, those three require only that this player is not among the others. They require nothing of the list for Victory Point and Knight.
  - `SetOtherPlayer` accepts a repeated entry, or this player itself. The source handles such lists, and the model does not cover them.
  - With such an entry, Monopoly drains the same hand again. The second pass finds nothing, and for this player the drain and credit cancel.
  - On a seven, the discard runs that hand through the halving checks again, so it can be halved more than once.
- Players.Player.ApplyDevelopmentCardEffect: the third-Knight bonus is modelled as written. `KnightBonusUnreachable` shows it cannot fire while every card object is held at most once.
- The null-node checks in `buildPathway` and `rollDiceAndMove` are left out. Every pathway end and terrain node is a real node, so they never fire.
- A Desert card in the roll loop is left out: the Desert's number 0 never matches a roll in [2, 12].
- Properties are values, not objects. Once attached they are never changed, so sharing cannot be observed.
- `setPath` is a `hasPath` flag. The copy of the pathway it stores is never read.
- The development-card holdings are a map keyed by card object. Their iteration order by pointer is left out: `DrawDevelopmentCard` returns some held card.
- Several actions are split into a check method and an effect method, such as SettlementCheck and PaySettlement. The effects happen in the source's order.
- The board constructor creates each node with its pathway and terrain lists already filled. The source appends them one call at a time; the final lists are the same.
