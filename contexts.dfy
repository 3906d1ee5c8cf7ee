/** The state the components share. The application holds one "a
    visualization is running" flag (a mutable reference handed to both the
    navigation bar and the board) and three providers: the board and the
    selections, the two anchor tiles, and the playback speed. Each is an
    object whose fields the components update in place. */
module Contexts {
  import opened Types

  /** The shared "a visualization is running" flag. */
  class RunningRef {
    var current: bool

    /** The application creates the flag cleared. */
    constructor ()
      ensures !current
    {
      current := false;
    }
  }

  /** The board, the chosen maze and algorithm, and whether the last search
      result is on display. */
  class PathfindingContext {
    var maze: MazeType
    var algorithm: AlgorithmType
    var grid: GridType
    var isGraphVisualized: bool
  }

  /** The current start and end tiles. */
  class TileContext {
    var startTile: TileType
    var endTile: TileType
  }

  /** The chosen playback speed factor. */
  class SpeedContext {
    var speed: real
  }
}
