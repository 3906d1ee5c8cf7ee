/** The application's configuration: board size, the default anchor tiles,
    the style strings of the tiles, the selector entries and the timings. */
module Constants {
  import opened Types

  const MAX_ROWS: int := 35
  const MAX_COLS: int := 55

  const START_TILE_CONFIGURATION: TileType := TileType(
    row := 10, col := 10,
    isEnd := false, isWall := false, isPath := false,
    distance := 0, isStart := true, isTraversed := false,
    parent := None)

  const END_TILE_CONFIGURATION: TileType := TileType(
    row := MAX_ROWS - 25, col := MAX_COLS - 20,
    isEnd := true, isWall := false, isPath := false,
    distance := 0, isStart := false, isTraversed := false,
    parent := None)

  const TILE_STYLE: string :=
    "lg:w-[18px] md:w-[20px] xs:w-[15px] w-[20px] lg:h-[17px] md:h-[20px] xs:h-[15px] h-[20px] border-t border-r border-[#109BFF]"
  const TRAVERSED_TILE_STYLE: string := TILE_STYLE + " bg-[#5941A9]"
  const START_TILE_STYLE: string := TILE_STYLE
  const END_TILE_STYLE: string := TILE_STYLE
  const WALL_TILE_STYLE: string := TILE_STYLE + " bg-[#DF8153]"
  const PATH_TILE_STYLE: string := TILE_STYLE + " bg-[#98FF61]"

  const MAZES: seq<MazeSelect> := [
    MazeSelect("No Maze", NONE),
    MazeSelect("Binary Tree", BINARY_TREE),
    MazeSelect("Recursive Division", RECURSIVE_DIVISION)
  ]

  const PATHFINDING_ALGORITHMS: seq<AlgorithmSelect> := [
    AlgorithmSelect("Dijkstra", DIJKSTRA),
    AlgorithmSelect("A-Star", A_STAR),
    AlgorithmSelect("Breadth First Search", BFS),
    AlgorithmSelect("Depth First Search", DFS)
  ]

  const SPEEDS: seq<SpeedSelect> := [
    SpeedSelect("Slow", 2.0),
    SpeedSelect("Medium", 1.0),
    SpeedSelect("Fast", 0.5)
  ]

  const SLEEP_TIME: int := 8
  const EXTENDED_SLEEP_TIME: int := 30

  /** `v` is the value of one of the speed selector's entries. */
  predicate IsSpeedValue(v: real)
  {
    exists o :: o in SPEEDS && o.value == v
  }

  /** The board is 35 by 55, and both default anchors lie on it, on
      different tiles: the start at (10, 10), the end at (10, 35). */
  lemma DefaultAnchorsOnBoard()
    ensures MAX_ROWS == 35 && MAX_COLS == 55
    ensures START_TILE_CONFIGURATION.row == 10 && START_TILE_CONFIGURATION.col == 10
    ensures END_TILE_CONFIGURATION.row == 10 && END_TILE_CONFIGURATION.col == 35
    ensures 0 <= START_TILE_CONFIGURATION.row < MAX_ROWS && 0 <= START_TILE_CONFIGURATION.col < MAX_COLS
    ensures 0 <= END_TILE_CONFIGURATION.row < MAX_ROWS && 0 <= END_TILE_CONFIGURATION.col < MAX_COLS
    ensures (START_TILE_CONFIGURATION.row, START_TILE_CONFIGURATION.col)
         != (END_TILE_CONFIGURATION.row, END_TILE_CONFIGURATION.col)
  {
  }

  /** The start configuration is flagged start and not end, the end
      configuration the reverse; both are clean tiles with no predecessor. */
  lemma DefaultAnchorFlags()
    ensures START_TILE_CONFIGURATION.isStart && !START_TILE_CONFIGURATION.isEnd
    ensures END_TILE_CONFIGURATION.isEnd && !END_TILE_CONFIGURATION.isStart
    ensures forall t :: t in [START_TILE_CONFIGURATION, END_TILE_CONFIGURATION] ==>
              !t.isWall && !t.isPath && !t.isTraversed && t.distance == 0 && t.parent == None
  {
  }

  /** The speed factors are 2, 1 and 0.5: positive, and strictly decreasing
      from "Slow" to "Fast", hence pairwise distinct. */
  lemma SpeedsDecreasing()
    ensures [SPEEDS[0].value, SPEEDS[1].value, SPEEDS[2].value] == [2.0, 1.0, 0.5]
    ensures forall o :: o in SPEEDS ==> o.value > 0.0
    ensures forall i, j :: 0 <= i < j < |SPEEDS| ==> SPEEDS[i].value > SPEEDS[j].value
  {
  }

  /** The two sleep times are 8 and 30 milliseconds: positive, the extended
      one the longer. */
  lemma SleepTimes()
    ensures SLEEP_TIME == 8 && EXTENDED_SLEEP_TIME == 30
    ensures 0 < SLEEP_TIME < EXTENDED_SLEEP_TIME
  {
  }

  /** The speed values are exactly 2, 1 and 0.5. */
  lemma SpeedValues(v: real)
    ensures IsSpeedValue(v) <==> v == 2.0 || v == 1.0 || v == 0.5
  {
  }

  /** The maze keys offered are exactly NONE, BINARY_TREE and
      RECURSIVE_DIVISION, each once. */
  lemma MazeKeysDistinct()
    ensures (set o | o in MAZES :: o.value) == {NONE, BINARY_TREE, RECURSIVE_DIVISION}
    ensures forall i, j :: 0 <= i < j < |MAZES| ==> MAZES[i].value != MAZES[j].value
  {
    assert MAZES[0] in MAZES && MAZES[1] in MAZES && MAZES[2] in MAZES;
  }

  /** The algorithm keys offered are exactly DIJKSTRA, A_STAR, BFS and DFS,
      each once. */
  lemma AlgorithmKeysDistinct()
    ensures (set o | o in PATHFINDING_ALGORITHMS :: o.value) == {DIJKSTRA, A_STAR, BFS, DFS}
    ensures forall i, j :: 0 <= i < j < |PATHFINDING_ALGORITHMS| ==>
              PATHFINDING_ALGORITHMS[i].value != PATHFINDING_ALGORITHMS[j].value
  {
    assert PATHFINDING_ALGORITHMS[0] in PATHFINDING_ALGORITHMS && PATHFINDING_ALGORITHMS[1] in PATHFINDING_ALGORITHMS;
    assert PATHFINDING_ALGORITHMS[2] in PATHFINDING_ALGORITHMS && PATHFINDING_ALGORITHMS[3] in PATHFINDING_ALGORITHMS;
  }

  /** Start and end tiles share the plain style; the traversed, wall and path
      styles each extend it with a background, and differ from it and from
      one another. */
  lemma StyleStrings()
    ensures START_TILE_STYLE == TILE_STYLE && END_TILE_STYLE == TILE_STYLE
    ensures TRAVERSED_TILE_STYLE != TILE_STYLE && WALL_TILE_STYLE != TILE_STYLE && PATH_TILE_STYLE != TILE_STYLE
    ensures WALL_TILE_STYLE != PATH_TILE_STYLE && WALL_TILE_STYLE != TRAVERSED_TILE_STYLE
    ensures PATH_TILE_STYLE != TRAVERSED_TILE_STYLE
  {
    var n := |TILE_STYLE|;
    assert |WALL_TILE_STYLE| == n + 13 && |PATH_TILE_STYLE| == n + 13 && |TRAVERSED_TILE_STYLE| == n + 13;
    assert WALL_TILE_STYLE[n + 6] == 'D' && PATH_TILE_STYLE[n + 6] == '9' && TRAVERSED_TILE_STYLE[n + 6] == '5';
  }
}
