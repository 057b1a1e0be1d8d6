/**
 * The fixed board topology: 54 nodes, 72 pathways and 19 terrains, addressed
 * by 1-based ids, exactly as the board constructor wires them. Every list
 * keeps the order of the calls that built it. The tables are taken as they
 * are, irregularities included: pathway 18 joins node 16 to itself, pathways
 * 39 and 40 both join nodes 31 and 32, node 21 lists pathway 39, terrain 7
 * lists node 3, and nodes 24, 28 and 29 list terrains whose node lists do not
 * contain them.
 */
module Topology {
  import opened Outcomes
  import opened ResourceCards

  type NodeId = i: int | 1 <= i <= 54 witness 1
  type PathId = i: int | 1 <= i <= 72 witness 1
  type TerrainId = i: int | 1 <= i <= 19 witness 1

  /** The id of the barren terrain. */
  const DesertId: TerrainId := 8

  /** The two endpoints each pathway is constructed with. */
  function PathEnds(p: PathId): (NodeId, NodeId)
  {
    if p <= 9 then PathEnds1To9(p)
    else if p <= 18 then PathEnds10To18(p)
    else if p <= 27 then PathEnds19To27(p)
    else if p <= 36 then PathEnds28To36(p)
    else if p <= 45 then PathEnds37To45(p)
    else if p <= 54 then PathEnds46To54(p)
    else if p <= 63 then PathEnds55To63(p)
    else PathEnds64To72(p)
  }

  /** Pathways 1 to 9. */
  function PathEnds1To9(p: PathId): (NodeId, NodeId)
    requires 1 <= p <= 9
  {
    match p
    case 1 => (1, 14)
    case 2 => (1, 2)
    case 3 => (2, 3)
    case 4 => (3, 4)
    case 5 => (4, 5)
    case 6 => (5, 6)
    case 7 => (6, 7)
    case 8 => (7, 8)
    case 9 => (8, 9)
  }

  /** Pathways 10 to 18. */
  function PathEnds10To18(p: PathId): (NodeId, NodeId)
    requires 10 <= p <= 18
  {
    match p
    case 10 => (9, 10)
    case 11 => (10, 5)
    case 12 => (10, 11)
    case 13 => (11, 12)
    case 14 => (12, 3)
    case 15 => (12, 13)
    case 16 => (13, 14)
    case 17 => (14, 15)
    case 18 => (16, 16)
  }

  /** Pathways 19 to 27. */
  function PathEnds19To27(p: PathId): (NodeId, NodeId)
    requires 19 <= p <= 27
  {
    match p
    case 19 => (16, 17)
    case 20 => (17, 18)
    case 21 => (18, 13)
    case 22 => (18, 19)
    case 23 => (19, 20)
    case 24 => (20, 11)
    case 25 => (20, 21)
    case 26 => (21, 22)
    case 27 => (22, 9)
  }

  /** Pathways 28 to 36. */
  function PathEnds28To36(p: PathId): (NodeId, NodeId)
    requires 28 <= p <= 36
  {
    match p
    case 28 => (22, 23)
    case 29 => (23, 25)
    case 30 => (25, 24)
    case 31 => (24, 8)
    case 32 => (25, 26)
    case 33 => (26, 27)
    case 34 => (27, 28)
    case 35 => (28, 29)
    case 36 => (29, 23)
  }

  /** Pathways 37 to 45. */
  function PathEnds37To45(p: PathId): (NodeId, NodeId)
    requires 37 <= p <= 45
  {
    match p
    case 37 => (29, 30)
    case 38 => (30, 31)
    case 39 => (31, 32)
    case 40 => (31, 32)
    case 41 => (32, 33)
    case 42 => (33, 19)
    case 43 => (33, 34)
    case 44 => (34, 35)
    case 45 => (35, 17)
  }

  /** Pathways 46 to 54. */
  function PathEnds46To54(p: PathId): (NodeId, NodeId)
    requires 46 <= p <= 54
  {
    match p
    case 46 => (35, 36)
    case 47 => (36, 38)
    case 48 => (38, 37)
    case 49 => (37, 16)
    case 50 => (36, 39)
    case 51 => (39, 40)
    case 52 => (40, 41)
    case 53 => (41, 34)
    case 54 => (41, 42)
  }

  /** Pathways 55 to 63. */
  function PathEnds55To63(p: PathId): (NodeId, NodeId)
    requires 55 <= p <= 63
  {
    match p
    case 55 => (42, 43)
    case 56 => (43, 32)
    case 57 => (43, 44)
    case 58 => (44, 45)
    case 59 => (45, 30)
    case 60 => (45, 46)
    case 61 => (46, 47)
    case 62 => (47, 28)
    case 63 => (46, 48)
  }

  /** Pathways 64 to 72. */
  function PathEnds64To72(p: PathId): (NodeId, NodeId)
    requires 64 <= p <= 72
  {
    match p
    case 64 => (48, 49)
    case 65 => (49, 50)
    case 66 => (50, 44)
    case 67 => (50, 51)
    case 68 => (51, 52)
    case 69 => (52, 42)
    case 70 => (52, 53)
    case 71 => (53, 54)
    case 72 => (54, 40)
  }

  /** The pathways added to each node, in order. */
  function NodePathways(i: NodeId): seq<PathId>
  {
    if i <= 9 then NodePathways1To9(i)
    else if i <= 18 then NodePathways10To18(i)
    else if i <= 27 then NodePathways19To27(i)
    else if i <= 36 then NodePathways28To36(i)
    else if i <= 45 then NodePathways37To45(i)
    else NodePathways46To54(i)
  }

  /** Nodes 1 to 9. */
  function NodePathways1To9(i: NodeId): seq<PathId>
    requires 1 <= i <= 9
  {
    match i
    case 1 => [1, 2]
    case 2 => [2, 3]
    case 3 => [3, 4]
    case 4 => [4, 5]
    case 5 => [5, 6]
    case 6 => [6, 7]
    case 7 => [7, 8]
    case 8 => [8, 9, 31]
    case 9 => [9, 10, 27]
  }

  /** Nodes 10 to 18. */
  function NodePathways10To18(i: NodeId): seq<PathId>
    requires 10 <= i <= 18
  {
    match i
    case 10 => [11, 10, 12]
    case 11 => [12, 13, 24]
    case 12 => [13, 14, 15]
    case 13 => [15, 16, 21]
    case 14 => [1, 16, 17]
    case 15 => [17, 18]
    case 16 => [18, 19, 49]
    case 17 => [20, 19, 45]
    case 18 => [20, 21, 22]
  }

  /** Nodes 19 to 27. */
  function NodePathways19To27(i: NodeId): seq<PathId>
    requires 19 <= i <= 27
  {
    match i
    case 19 => [22, 23, 42]
    case 20 => [24, 23, 25]
    case 21 => [25, 26, 39]
    case 22 => [27, 28, 26]
    case 23 => [28, 29, 36]
    case 24 => [31, 30]
    case 25 => [29, 30, 32]
    case 26 => [33, 32]
    case 27 => [33, 34]
  }

  /** Nodes 28 to 36. */
  function NodePathways28To36(i: NodeId): seq<PathId>
    requires 28 <= i <= 36
  {
    match i
    case 28 => [34, 35, 62]
    case 29 => [35, 36, 37]
    case 30 => [37, 38, 59]
    case 31 => [40, 38, 39]
    case 32 => [40, 41, 56]
    case 33 => [41, 42, 43]
    case 34 => [43, 44, 53]
    case 35 => [44, 45, 46]
    case 36 => [46, 47, 50]
  }

  /** Nodes 37 to 45. */
  function NodePathways37To45(i: NodeId): seq<PathId>
    requires 37 <= i <= 45
  {
    match i
    case 37 => [49, 48]
    case 38 => [47, 48]
    case 39 => [50, 51]
    case 40 => [51, 52, 72]
    case 41 => [52, 53, 54]
    case 42 => [54, 55, 69]
    case 43 => [55, 56, 57]
    case 44 => [57, 58, 66]
    case 45 => [58, 59, 60]
  }

  /** Nodes 46 to 54. */
  function NodePathways46To54(i: NodeId): seq<PathId>
    requires 46 <= i <= 54
  {
    match i
    case 46 => [60, 61, 63]
    case 47 => [62, 61]
    case 48 => [64, 63]
    case 49 => [64, 65]
    case 50 => [65, 66, 67]
    case 51 => [67, 68]
    case 52 => [68, 69, 70]
    case 53 => [70, 71]
    case 54 => [72, 71]
  }

  /** The terrains added to each node, in order. */
  function NodeTerrains(i: NodeId): seq<TerrainId>
  {
    if i <= 9 then NodeTerrains1To9(i)
    else if i <= 18 then NodeTerrains10To18(i)
    else if i <= 27 then NodeTerrains19To27(i)
    else if i <= 36 then NodeTerrains28To36(i)
    else if i <= 45 then NodeTerrains37To45(i)
    else NodeTerrains46To54(i)
  }

  /** Nodes 1 to 9. */
  function NodeTerrains1To9(i: NodeId): seq<TerrainId>
    requires 1 <= i <= 9
  {
    match i
    case 1 => [1]
    case 2 => [1]
    case 3 => [1, 2]
    case 4 => [2]
    case 5 => [2, 3]
    case 6 => [3]
    case 7 => [3]
    case 8 => [3, 7]
    case 9 => [3, 7, 6]
  }

  /** Nodes 10 to 18. */
  function NodeTerrains10To18(i: NodeId): seq<TerrainId>
    requires 10 <= i <= 18
  {
    match i
    case 10 => [2, 3, 6]
    case 11 => [2, 5, 6]
    case 12 => [1, 2, 5]
    case 13 => [1, 4, 5]
    case 14 => [1, 4]
    case 15 => [4]
    case 16 => [4, 8]
    case 17 => [4, 8, 9]
    case 18 => [4, 5, 9]
  }

  /** Nodes 19 to 27. */
  function NodeTerrains19To27(i: NodeId): seq<TerrainId>
    requires 19 <= i <= 27
  {
    match i
    case 19 => [5, 10, 9]
    case 20 => [5, 6, 10]
    case 21 => [6, 10, 11]
    case 22 => [6, 7, 11]
    case 23 => [7, 11, 12]
    case 24 => [7]
    case 25 => [7, 12]
    case 26 => [12]
    case 27 => [12]
  }

  /** Nodes 28 to 36. */
  function NodeTerrains28To36(i: NodeId): seq<TerrainId>
    requires 28 <= i <= 36
  {
    match i
    case 28 => [6, 12]
    case 29 => [1, 12, 16]
    case 30 => [11, 15, 16]
    case 31 => [10, 15, 11]
    case 32 => [10, 15, 14]
    case 33 => [10, 9, 14]
    case 34 => [9, 13, 14]
    case 35 => [8, 9, 13]
    case 36 => [8, 13]
  }

  /** Nodes 37 to 45. */
  function NodeTerrains37To45(i: NodeId): seq<TerrainId>
    requires 37 <= i <= 45
  {
    match i
    case 37 => [8]
    case 38 => [8]
    case 39 => [13]
    case 40 => [13, 17]
    case 41 => [13, 14, 17]
    case 42 => [18, 14, 17]
    case 43 => [18, 14, 15]
    case 44 => [18, 19, 15]
    case 45 => [16, 19, 15]
  }

  /** Nodes 46 to 54. */
  function NodeTerrains46To54(i: NodeId): seq<TerrainId>
    requires 46 <= i <= 54
  {
    match i
    case 46 => [16, 19]
    case 47 => [16]
    case 48 => [19]
    case 49 => [19]
    case 50 => [19, 18]
    case 51 => [18]
    case 52 => [17, 18]
    case 53 => [17]
    case 54 => [17]
  }

  /** The neighbours set on each node, in order. */
  function Neighbors(i: NodeId): seq<NodeId>
  {
    if i <= 9 then Neighbors1To9(i)
    else if i <= 18 then Neighbors10To18(i)
    else if i <= 27 then Neighbors19To27(i)
    else if i <= 36 then Neighbors28To36(i)
    else if i <= 45 then Neighbors37To45(i)
    else Neighbors46To54(i)
  }

  /** Nodes 1 to 9. */
  function Neighbors1To9(i: NodeId): seq<NodeId>
    requires 1 <= i <= 9
  {
    match i
    case 1 => [2, 14]
    case 2 => [1, 3]
    case 3 => [2, 4, 12]
    case 4 => [3, 5]
    case 5 => [4, 6, 10]
    case 6 => [5, 7]
    case 7 => [6, 8]
    case 8 => [7, 9, 24]
    case 9 => [8, 10, 22]
  }

  /** Nodes 10 to 18. */
  function Neighbors10To18(i: NodeId): seq<NodeId>
    requires 10 <= i <= 18
  {
    match i
    case 10 => [9, 11, 5]
    case 11 => [10, 12, 20]
    case 12 => [3, 11, 13]
    case 13 => [12, 14, 18]
    case 14 => [1, 13, 15]
    case 15 => [14, 16]
    case 16 => [15, 17, 37]
    case 17 => [16, 18, 35]
    case 18 => [17, 19, 13]
  }

  /** Nodes 19 to 27. */
  function Neighbors19To27(i: NodeId): seq<NodeId>
    requires 19 <= i <= 27
  {
    match i
    case 19 => [18, 20, 33]
    case 20 => [11, 19, 21]
    case 21 => [20, 22, 31]
    case 22 => [9, 21, 23]
    case 23 => [22, 25, 29]
    case 24 => [8, 25]
    case 25 => [24, 23, 26]
    case 26 => [25, 27]
    case 27 => [26, 28]
  }

  /** Nodes 28 to 36. */
  function Neighbors28To36(i: NodeId): seq<NodeId>
    requires 28 <= i <= 36
  {
    match i
    case 28 => [27, 29, 47]
    case 29 => [23, 28, 30]
    case 30 => [29, 31, 45]
    case 31 => [21, 30, 32]
    case 32 => [31, 33, 43]
    case 33 => [19, 32, 34]
    case 34 => [33, 35, 41]
    case 35 => [17, 34, 36]
    case 36 => [35, 38, 39]
  }

  /** Nodes 37 to 45. */
  function Neighbors37To45(i: NodeId): seq<NodeId>
    requires 37 <= i <= 45
  {
    match i
    case 37 => [16, 38]
    case 38 => [36, 37]
    case 39 => [36, 40]
    case 40 => [39, 41, 54]
    case 41 => [34, 40, 42]
    case 42 => [41, 43, 52]
    case 43 => [32, 42, 44]
    case 44 => [43, 45, 50]
    case 45 => [30, 44, 46]
  }

  /** Nodes 46 to 54. */
  function Neighbors46To54(i: NodeId): seq<NodeId>
    requires 46 <= i <= 54
  {
    match i
    case 46 => [45, 47, 48]
    case 47 => [28, 46]
    case 48 => [46, 49]
    case 49 => [48, 50]
    case 50 => [44, 49, 51]
    case 51 => [50, 52]
    case 52 => [42, 51, 53]
    case 53 => [52, 54]
    case 54 => [40, 53]
  }

  /** The six nodes set on each terrain, in order. */
  function TerrainNodes(i: TerrainId): seq<NodeId>
  {
    if i <= 10 then TerrainNodes1To10(i)
    else TerrainNodes11To19(i)
  }

  /** Terrains 1 to 10. */
  function TerrainNodes1To10(i: TerrainId): seq<NodeId>
    requires 1 <= i <= 10
  {
    match i
    case 1 => [1, 2, 3, 12, 13, 14]
    case 2 => [3, 4, 5, 12, 11, 10]
    case 3 => [5, 6, 7, 8, 9, 10]
    case 4 => [13, 14, 15, 16, 17, 18]
    case 5 => [11, 12, 13, 18, 19, 20]
    case 6 => [9, 10, 11, 20, 21, 22]
    case 7 => [8, 9, 3, 22, 23, 25]
    case 8 => [16, 17, 35, 36, 38, 37]
    case 9 => [17, 18, 19, 33, 34, 35]
    case 10 => [19, 20, 21, 31, 32, 33]
  }

  /** Terrains 11 to 19. */
  function TerrainNodes11To19(i: TerrainId): seq<NodeId>
    requires 11 <= i <= 19
  {
    match i
    case 11 => [21, 22, 23, 29, 30, 31]
    case 12 => [23, 25, 26, 27, 28, 29]
    case 13 => [34, 35, 36, 39, 40, 41]
    case 14 => [32, 33, 34, 41, 42, 43]
    case 15 => [30, 31, 32, 43, 44, 45]
    case 16 => [28, 29, 30, 45, 46, 47]
    case 17 => [40, 41, 42, 52, 53, 54]
    case 18 => [42, 43, 44, 50, 51, 52]
    case 19 => [44, 45, 46, 48, 49, 50]
  }

  /** The resource name each terrain is constructed with. */
  function TerrainName(t: TerrainId): string
  {
    if t <= 10 then TerrainName1To10(t)
    else TerrainName11To19(t)
  }

  /** Terrains 1 to 10. */
  function TerrainName1To10(t: TerrainId): string
    requires 1 <= t <= 10
  {
    match t
    case 1 => "Lumber"
    case 2 => "Wool"
    case 3 => "Grain"
    case 4 => "Brick"
    case 5 => "Ore"
    case 6 => "Brick"
    case 7 => "Wool"
    case 8 => "Desert"
    case 9 => "Lumber"
    case 10 => "Grain"
  }

  /** Terrains 11 to 19. */
  function TerrainName11To19(t: TerrainId): string
    requires 11 <= t <= 19
  {
    match t
    case 11 => "Lumber"
    case 12 => "Grain"
    case 13 => "Brick"
    case 14 => "Wool"
    case 15 => "Wool"
    case 16 => "Ore"
    case 17 => "Ore"
    case 18 => "Grain"
    case 19 => "Lumber"
  }

  /** The production number set on each terrain; 0 for the barren one. */
  function TerrainNumber(t: TerrainId): int
  {
    if t <= 10 then TerrainNumber1To10(t)
    else TerrainNumber11To19(t)
  }

  /** Terrains 1 to 10. */
  function TerrainNumber1To10(t: TerrainId): int
    requires 1 <= t <= 10
  {
    match t
    case 1 => 11
    case 2 => 12
    case 3 => 9
    case 4 => 4
    case 5 => 6
    case 6 => 5
    case 7 => 10
    case 8 => 0
    case 9 => 3
    case 10 => 11
  }

  /** Terrains 11 to 19. */
  function TerrainNumber11To19(t: TerrainId): int
    requires 11 <= t <= 19
  {
    match t
    case 11 => 4
    case 12 => 8
    case 13 => 8
    case 14 => 10
    case 15 => 9
    case 16 => 3
    case 17 => 5
    case 18 => 2
    case 19 => 6
  }
  /** The kind a terrain produces, if any: the barren terrain produces none. */
  function TerrainKind(t: TerrainId): (r: Option<Resource>)
    ensures r.None? <==> t == DesertId
    ensures r.Some? ==> ResourceName(r.value) == TerrainName(t)
  {
    ParseResource(TerrainName(t))
  }

  /** b is among a's neighbours. */
  predicate Adjacent(a: NodeId, b: NodeId)
  {
    b in Neighbors(a)
  }

  lemma NeighborsSymmetric1To9(a: NodeId, b: NodeId)
    requires 1 <= a <= 9 && Adjacent(a, b)
    ensures Adjacent(b, a)
  {
    match a
    case 1 =>
    case 2 =>
    case 3 =>
    case 4 =>
    case 5 =>
    case 6 =>
    case 7 =>
    case 8 =>
    case 9 =>
  }

  lemma NeighborsSymmetric10To18(a: NodeId, b: NodeId)
    requires 10 <= a <= 18 && Adjacent(a, b)
    ensures Adjacent(b, a)
  {
    match a
    case 10 =>
    case 11 =>
    case 12 =>
    case 13 =>
    case 14 =>
    case 15 =>
    case 16 =>
    case 17 =>
    case 18 =>
  }

  lemma NeighborsSymmetric19To27(a: NodeId, b: NodeId)
    requires 19 <= a <= 27 && Adjacent(a, b)
    ensures Adjacent(b, a)
  {
    match a
    case 19 =>
    case 20 =>
    case 21 =>
    case 22 =>
    case 23 =>
    case 24 =>
    case 25 =>
    case 26 =>
    case 27 =>
  }

  lemma NeighborsSymmetric28To36(a: NodeId, b: NodeId)
    requires 28 <= a <= 36 && Adjacent(a, b)
    ensures Adjacent(b, a)
  {
    match a
    case 28 =>
    case 29 =>
    case 30 =>
    case 31 =>
    case 32 =>
    case 33 =>
    case 34 =>
    case 35 =>
    case 36 =>
  }

  lemma NeighborsSymmetric37To45(a: NodeId, b: NodeId)
    requires 37 <= a <= 45 && Adjacent(a, b)
    ensures Adjacent(b, a)
  {
    match a
    case 37 =>
    case 38 =>
    case 39 =>
    case 40 =>
    case 41 =>
    case 42 =>
    case 43 =>
    case 44 =>
    case 45 =>
  }

  lemma NeighborsSymmetric46To54(a: NodeId, b: NodeId)
    requires 46 <= a <= 54 && Adjacent(a, b)
    ensures Adjacent(b, a)
  {
    match a
    case 46 =>
    case 47 =>
    case 48 =>
    case 49 =>
    case 50 =>
    case 51 =>
    case 52 =>
    case 53 =>
    case 54 =>
  }

  /** The neighbour relation is symmetric. */
  lemma NeighborsSymmetric(a: NodeId, b: NodeId)
    ensures Adjacent(a, b) <==> Adjacent(b, a)
  {
    if Adjacent(a, b) {
      if a <= 9 { NeighborsSymmetric1To9(a, b); }
      else if a <= 18 { NeighborsSymmetric10To18(a, b); }
      else if a <= 27 { NeighborsSymmetric19To27(a, b); }
      else if a <= 36 { NeighborsSymmetric28To36(a, b); }
      else if a <= 45 { NeighborsSymmetric37To45(a, b); }
      else { NeighborsSymmetric46To54(a, b); }
    }
    if Adjacent(b, a) {
      if b <= 9 { NeighborsSymmetric1To9(b, a); }
      else if b <= 18 { NeighborsSymmetric10To18(b, a); }
      else if b <= 27 { NeighborsSymmetric19To27(b, a); }
      else if b <= 36 { NeighborsSymmetric28To36(b, a); }
      else if b <= 45 { NeighborsSymmetric37To45(b, a); }
      else { NeighborsSymmetric46To54(b, a); }
    }
  }

  /** Every node has two or three neighbours and at most three pathways and terrains. */
  lemma NodeDegrees(a: NodeId)
    ensures 2 <= |Neighbors(a)| <= 3
    ensures |NodePathways(a)| <= 3 && |NodeTerrains(a)| <= 3
    ensures 1 <= |NodeTerrains(a)|
  {
  }

  /** Every terrain lists exactly six nodes. */
  lemma TerrainSize(t: TerrainId)
    ensures |TerrainNodes(t)| == 6
  {
  }

  /**
   * The barren terrain is numbered 0 and produces nothing; every other terrain
   * produces a kind and is numbered in [2, 12] but never 7.
   */
  lemma TerrainNumbers(t: TerrainId)
    ensures t == DesertId ==> TerrainNumber(t) == 0 && TerrainName(t) == "Desert" && TerrainKind(t) == None
    ensures t != DesertId ==> 2 <= TerrainNumber(t) <= 12 && TerrainNumber(t) != 7 && TerrainKind(t).Some?
  {
  }

  /** A roll in [2, 12] only ever matches terrains that produce something, and a 7 matches none. */
  lemma RolledTerrainProduces(t: TerrainId, roll: int)
    requires 2 <= roll <= 12 && TerrainNumber(t) == roll
    ensures TerrainKind(t).Some? && t != DesertId && roll != 7
  {
    TerrainNumbers(t);
  }

  /** The irregular entries of the tables, as the constructor writes them. */
  lemma TableQuirks()
    ensures PathEnds(18) == (16, 16)
    ensures PathEnds(39) == (31, 32) && PathEnds(40) == (31, 32)
    ensures 39 in NodePathways(21) && 21 != PathEnds(39).0 && 21 != PathEnds(39).1
    ensures 3 in TerrainNodes(7) && 7 !in NodeTerrains(3)
    ensures 6 in NodeTerrains(28) && 28 !in TerrainNodes(6)
    ensures 1 in NodeTerrains(29) && 29 !in TerrainNodes(1)
  {
  }
}
