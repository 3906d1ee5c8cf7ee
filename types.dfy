/** Value types shared by the components: one board cell, the board itself,
    and the keys and entries the three drop-down selectors offer. */
module Types {

  datatype Option<T> = None | Some(value: T)

  /** A board coordinate, written (row, col). */
  type Position = (int, int)

  /** One cell of the board. `parent` is kept as the coordinate of the
      predecessor tile rather than as a live reference to it; `distance` is
      an integer (the components modelled here only ever write 0 into it). */
  datatype TileType = TileType(
    row: int,
    col: int,
    isEnd: bool,
    isWall: bool,
    isPath: bool,
    distance: int,
    isStart: bool,
    isTraversed: bool,
    parent: Option<Position>)

  /** The board: a sequence of rows, each a sequence of tiles. */
  type GridType = seq<seq<TileType>>

  /** Keys of the maze generators and of the search algorithms. */
  datatype MazeType = NONE | BINARY_TREE | RECURSIVE_DIVISION
  datatype AlgorithmType = DIJKSTRA | A_STAR | BFS | DFS

  /** Entries of the selectors: a label shown to the user and the value chosen. */
  datatype MazeSelect = MazeSelect(name: string, value: MazeType)
  datatype AlgorithmSelect = AlgorithmSelect(name: string, value: AlgorithmType)
  datatype SpeedSelect = SpeedSelect(name: string, value: real)

  /** What the search engine hands back: the tiles in visiting order and the route. */
  datatype SearchResult = SearchResult(traversedTiles: seq<TileType>, path: seq<TileType>)

  /** (row, col) addresses a tile of `grid`. */
  predicate InBounds(grid: GridType, row: int, col: int)
  {
    0 <= row < |grid| && 0 <= col < |grid[row]|
  }

  /** Every tile records its own place in the board. */
  predicate WellPositioned(grid: GridType)
  {
    forall i, j :: 0 <= i < |grid| && 0 <= j < |grid[i]| ==> grid[i][j].row == i && grid[i][j].col == j
  }
}
