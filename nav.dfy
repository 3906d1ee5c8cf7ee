/** The navigation bar: the maze, algorithm and speed selectors, the play
    button that starts or clears a visualization, and the number inputs that
    move the start and end tiles. The search engine, the maze generators,
    the board reset and the replay animation are not part of this model; the
    methods take them as parameters. */
module NavComponent {
  import opened Types
  import opened Constants
  import opened Contexts

  // ---------------------------------------------------------------------
  // Moving the start or end tile
  // ---------------------------------------------------------------------

  datatype Anchor = StartAnchor | EndAnchor

  function Other(a: Anchor): Anchor
  {
    if a == StartAnchor then EndAnchor else StartAnchor
  }

  /** The tile carries the flag of anchor `a`. */
  function IsAnchor(t: TileType, a: Anchor): bool
  {
    match a
    case StartAnchor => t.isStart
    case EndAnchor => t.isEnd
  }

  /** The tile with the flag of anchor `a` set to `flag` and nothing else changed. */
  function WithAnchor(t: TileType, a: Anchor, flag: bool): TileType
  {
    match a
    case StartAnchor => t.(isStart := flag)
    case EndAnchor => t.(isEnd := flag)
  }

  /** One tile of the relocation: a holder of the flag loses it (this test
      comes first), the tile whose own coordinates are (row, col) gains it. */
  function RelocateTile(t: TileType, a: Anchor, row: int, col: int): TileType
  {
    if IsAnchor(t, a) then WithAnchor(t, a, false)
    else if t.row == row && t.col == col then WithAnchor(t, a, true)
    else t
  }

  /** The board after moving anchor `a` to (row, col). The shape is kept and
      each tile changes in at most the one flag. A tile carries the flag
      afterwards exactly when it did not before and its own coordinates are
      (row, col): no old holder keeps it, and there is no bounds, wall or
      other-anchor check. */
  function RelocateAnchor(grid: GridType, a: Anchor, row: int, col: int): (moved: GridType)
    ensures |moved| == |grid| && forall i :: 0 <= i < |grid| ==> |moved[i]| == |grid[i]|
    ensures forall i, j :: 0 <= i < |grid| && 0 <= j < |grid[i]| ==>
              (IsAnchor(moved[i][j], a) <==> !IsAnchor(grid[i][j], a) && grid[i][j].row == row && grid[i][j].col == col)
    ensures forall i, j :: 0 <= i < |grid| && 0 <= j < |grid[i]| ==>
              moved[i][j] == WithAnchor(grid[i][j], a, IsAnchor(moved[i][j], a))
  {
    seq(|grid|, i requires 0 <= i < |grid| =>
      seq(|grid[i]|, j requires 0 <= j < |grid[i]| => RelocateTile(grid[i][j], a, row, col)))
  }

  /** Where the flag of anchor `a` is on the board. */
  function AnchorPositions(grid: GridType, a: Anchor): set<Position>
  {
    set i, j | 0 <= i < |grid| && 0 <= j < |grid[i]| && IsAnchor(grid[i][j], a) :: (i, j)
  }

  /** On a board whose tiles know their places, after the move the flag is on
      (row, col) alone when that tile exists and did not already carry it, and
      nowhere otherwise: moving an anchor onto itself, or off the board,
      leaves the board without that anchor. The addressed tile gains the flag
      whatever it is, a wall or the other anchor included. */
  lemma RelocatedAnchorPositions(grid: GridType, a: Anchor, row: int, col: int)
    requires WellPositioned(grid)
    ensures AnchorPositions(RelocateAnchor(grid, a, row, col), a)
         == if InBounds(grid, row, col) && !IsAnchor(grid[row][col], a) then {(row, col)} else {}
    ensures InBounds(grid, row, col) && !IsAnchor(grid[row][col], a) ==>
              RelocateAnchor(grid, a, row, col)[row][col] == WithAnchor(grid[row][col], a, true)
  {
  }

  /** Moving one anchor leaves the other anchor's flags exactly where they were. */
  lemma RelocateKeepsOtherAnchor(grid: GridType, a: Anchor, row: int, col: int)
    ensures AnchorPositions(RelocateAnchor(grid, a, row, col), Other(a)) == AnchorPositions(grid, Other(a))
  {
  }

  // ---------------------------------------------------------------------
  // Speed and playback delay
  // ---------------------------------------------------------------------

  /** The first entry of `options` whose value is `v`, as a search from the
      front of the list finds it. */
  function FindSpeed(options: seq<SpeedSelect>, v: real): (found: Option<SpeedSelect>)
    ensures found.None? <==> forall k :: 0 <= k < |options| ==> options[k].value != v
    ensures found.Some? ==> exists k :: 0 <= k < |options| && options[k] == found.value && found.value.value == v
                              && forall m :: 0 <= m < k ==> options[m].value != v
    decreases |options|
  {
    if options == [] then None
    else if options[0].value == v then Some(options[0])
    else
      var rest := FindSpeed(options[1..], v);
      assert rest.Some? ==> exists k :: 1 <= k < |options| && options[k] == rest.value && rest.value.value == v
                               && forall m :: 0 <= m < k ==> options[m].value != v by {
        if rest.Some? {
          var k :| 0 <= k < |options[1..]| && options[1..][k] == rest.value && rest.value.value == v
                   && forall m :: 0 <= m < k ==> options[1..][m].value != v;
          assert options[k + 1] == rest.value;
          assert forall m :: 0 <= m < k + 1 ==> options[m].value != v by {
            forall m | 0 <= m < k + 1 ensures options[m].value != v {
              if m > 0 { assert options[m] == options[1..][m - 1]; }
            }
          }
        }
      }
      rest
  }

  /** The delay before the playback-finished step, in milliseconds, from the
      number of traversed tiles, the length of the path and the speed factor
      looked up among the speed entries. The lookup fails (the source then
      throws) exactly when `speed` is not one of the entries' values; when it
      succeeds it returns `speed` itself, so the delay is
      8 * (traversed + 16) + 30 * (path + 60) * speed. */
  function PlaybackDelay(traversedCount: nat, pathCount: nat, speed: real): (delay: Option<real>)
    ensures delay.Some? <==> IsSpeedValue(speed)
    ensures delay.Some? ==>
              delay.value == (SLEEP_TIME * (traversedCount + 16)) as real
                           + (EXTENDED_SLEEP_TIME * (pathCount + 60)) as real * speed
  {
    match FindSpeed(SPEEDS, speed)
    case None => None
    case Some(entry) =>
      Some((SLEEP_TIME * (traversedCount + SLEEP_TIME * 2)) as real
           + (EXTENDED_SLEEP_TIME * (pathCount + 60)) as real * entry.value)
  }

  /** More traversed tiles or a longer path never shorten the playback. */
  lemma PlaybackDelayMonotone(t1: nat, t2: nat, p1: nat, p2: nat, speed: real)
    requires IsSpeedValue(speed) && t1 <= t2 && p1 <= p2
    ensures PlaybackDelay(t1, p1, speed).value <= PlaybackDelay(t2, p2, speed).value
  {
  }

  /** A slower setting (a larger factor) makes the playback strictly longer. */
  lemma SlowerSpeedLongerPlayback(t: nat, p: nat, slow: real, fast: real)
    requires IsSpeedValue(slow) && IsSpeedValue(fast) && slow > fast
    ensures PlaybackDelay(t, p, slow).value > PlaybackDelay(t, p, fast).value
  {
  }

  /** The speed selector as the source writes it: the chosen entry's value
      goes through its decimal text and `parseInt`, which keeps the integer
      part of each of the three values. */
  function ParseIntSpeed(optionValue: real): (n: int)
    requires IsSpeedValue(optionValue)
    ensures n as real <= optionValue < n as real + 1.0
  {
    optionValue.Floor
  }

  /** With `parseInt`, "Slow" and "Medium" keep their factors but "Fast"
      becomes 0, which is no entry's value, so the delay lookup fails for
      every run started at that speed. */
  lemma FastSpeedBreaksPlayback(traversedCount: nat, pathCount: nat)
    ensures ParseIntSpeed(SPEEDS[0].value) as real == SPEEDS[0].value
    ensures ParseIntSpeed(SPEEDS[1].value) as real == SPEEDS[1].value
    ensures ParseIntSpeed(SPEEDS[2].value) == 0
    ensures !IsSpeedValue(ParseIntSpeed(SPEEDS[2].value) as real)
    ensures PlaybackDelay(traversedCount, pathCount, ParseIntSpeed(SPEEDS[2].value) as real) == None
  {
  }

  /** The speed selector as intended: the option's text converted as a
      number, which gives back the entry's value itself. */
  function SelectedSpeed(optionValue: real): real
  {
    optionValue
  }

  /** Every entry the selector offers yields a speed whose lookup succeeds,
      so the delay is defined for each of them and scales with the entry's factor. */
  lemma SelectedSpeedIsListed(o: SpeedSelect, traversedCount: nat, pathCount: nat)
    requires o in SPEEDS
    ensures IsSpeedValue(SelectedSpeed(o.value))
    ensures PlaybackDelay(traversedCount, pathCount, SelectedSpeed(o.value))
         == Some((SLEEP_TIME * (traversedCount + 16)) as real + (EXTENDED_SLEEP_TIME * (pathCount + 60)) as real * o.value)
  {
  }

  // ---------------------------------------------------------------------
  // The run guard: play button, maze and speed selectors, timer callbacks
  // ---------------------------------------------------------------------

  /** The three flags the navigation bar drives: whether a search result is on
      display, whether the inputs are disabled, and the shared running flag. */
  datatype RunFlags = RunFlags(isGraphVisualized: bool, isDisabled: bool, running: bool)

  /** The play button: clears a result on display, or else starts a run. The
      flags of a run are set before the delay is computed, so they are set
      whether or not the speed lookup then succeeds. */
  function PressPlayFlags(f: RunFlags): RunFlags
  {
    if f.isGraphVisualized then f.(isGraphVisualized := false)
    else f.(isDisabled := true, running := true)
  }

  /** The step after the playback delay: the result is on display and the
      inputs are live again. */
  function PlaybackDoneFlags(f: RunFlags): RunFlags
  {
    RunFlags(true, false, false)
  }

  /** The maze selector: "no maze" changes no flag; a generator disables the
      inputs and takes the result off display, but leaves the running flag alone. */
  function PickMazeFlags(f: RunFlags, maze: MazeType): RunFlags
  {
    if maze == NONE then f else f.(isDisabled := true, isGraphVisualized := false)
  }

  /** The maze generator's completion callback re-enables the inputs. */
  function MazeDoneFlags(f: RunFlags): RunFlags
  {
    f.(isDisabled := false)
  }

  /** The flags, the chosen speed and the timers that are pending. */
  datatype Session = Session(flags: RunFlags, speed: real, playbackPending: bool, mazePending: bool)

  /** Nothing on display, nothing disabled, nothing pending, at the given speed. */
  function Idle(speed: real): Session
  {
    Session(RunFlags(false, false, false), speed, false, false)
  }

  /** A speed change stores the number the selector hands over: the entry's
      value with the intended conversion, `ParseIntSpeed` of it as written. */
  datatype NavEvent = PlayPressed | PlaybackFinished | MazePicked(maze: MazeType) | MazeFinished
                    | SpeedPicked(value: real)

  /** A control whose `isDisabled` prop is set is taken to ignore input, and
      a timer fires only when pending. */
  predicate Enabled(s: Session, e: NavEvent)
  {
    match e
    case PlayPressed => !s.flags.isDisabled
    case MazePicked(_) => !s.flags.isDisabled
    case SpeedPicked(_) => !s.flags.isDisabled
    case PlaybackFinished => s.playbackPending
    case MazeFinished => s.mazePending
  }

  /** One event. Starting a run schedules the completion step only when the
      delay can be computed, that is when the speed is an entry's value;
      otherwise the handler throws after the flags are set, and no timer is
      pending. */
  function Step(s: Session, e: NavEvent): Session
  {
    match e
    case PlayPressed =>
      var scheduled := !s.flags.isGraphVisualized && PlaybackDelay(0, 0, s.speed).Some?;
      s.(flags := PressPlayFlags(s.flags), playbackPending := s.playbackPending || scheduled)
    case PlaybackFinished => s.(flags := PlaybackDoneFlags(s.flags), playbackPending := false)
    case MazePicked(m) => s.(flags := PickMazeFlags(s.flags, m), mazePending := s.mazePending || m != NONE)
    case MazeFinished => s.(flags := MazeDoneFlags(s.flags), mazePending := false)
    case SpeedPicked(v) => s.(speed := v)
  }

  /** The session after a sequence of user actions and timer firings; an
      action on a disabled control is lost. */
  function Run(s: Session, events: seq<NavEvent>): Session
    decreases |events|
  {
    if events == [] then s
    else Run(if Enabled(s, events[0]) then Step(s, events[0]) else s, events[1..])
  }

  /** The guard the board relies on: the running flag is only set while the
      inputs are disabled, a pending playback keeps it set, a pending maze
      keeps the inputs disabled and the running flag clear, and the two
      timers are never pending together. */
  predicate Guarded(s: Session)
  {
    (s.flags.running ==> s.flags.isDisabled)
    && (s.playbackPending ==> s.flags.running)
    && (s.mazePending ==> s.flags.isDisabled && !s.flags.running)
    && !(s.playbackPending && s.mazePending)
  }

  /** The guard holds in every reachable session, whatever speeds are chosen,
      the as-written "Fast" included: the running flag is never set while the
      inputs are live. */
  lemma {:induction false} RunKeepsGuard(s: Session, events: seq<NavEvent>)
    requires Guarded(s)
    ensures Guarded(Run(s, events))
    decreases |events|
  {
    if events != [] {
      var next := if Enabled(s, events[0]) then Step(s, events[0]) else s;
      assert Guarded(next);
      RunKeepsGuard(next, events[1..]);
    }
  }

  /** The speed is an entry's value, the running flag is set exactly while a
      playback is pending, the inputs are disabled exactly while a playback or
      a maze is pending, and the two are never pending together: every run
      that starts also ends. */
  predicate Consistent(s: Session)
  {
    IsSpeedValue(s.speed)
    && s.flags.running == s.playbackPending
    && s.flags.isDisabled == (s.playbackPending || s.mazePending)
    && !(s.playbackPending && s.mazePending)
  }

  /** Every speed the events choose is an entry's value, as with the intended
      selector (`SelectedSpeedIsListed`). */
  predicate ListedSpeeds(events: seq<NavEvent>)
  {
    forall k :: 0 <= k < |events| && events[k].SpeedPicked? ==> IsSpeedValue(events[k].value)
  }

  /** With the intended speed selector, every sequence of actions and timer
      firings keeps the session consistent, and consistency implies the guard. */
  lemma {:induction false} RunKeepsConsistent(s: Session, events: seq<NavEvent>)
    requires Consistent(s) && ListedSpeeds(events)
    ensures Consistent(Run(s, events)) && Guarded(Run(s, events))
    decreases |events|
  {
    if events != [] {
      var next := if Enabled(s, events[0]) then Step(s, events[0]) else s;
      assert Consistent(next);
      assert ListedSpeeds(events[1..]) by {
        forall k | 0 <= k < |events[1..]| && events[1..][k].SpeedPicked?
          ensures IsSpeedValue(events[1..][k].value)
        {
          assert events[1..][k] == events[k + 1];
        }
      }
      RunKeepsConsistent(next, events[1..]);
    }
  }

  /** The session the as-written "Fast" setting leads to: the inputs disabled
      and the running flag set, with no timer pending to clear them. */
  const LOCKED_UP: Session := Session(RunFlags(false, true, true), 0.0, false, false)

  /** With the selector as written, choosing "Fast" and pressing play from any
      consistent session with live inputs and no result on display sets the
      running flag and disables the inputs with nothing pending. No later
      action or timer changes that: the board and every input stay locked. */
  lemma {:induction false} FastPlayLocksUp(s: Session, later: seq<NavEvent>)
    requires Consistent(s) && !s.flags.isDisabled && !s.flags.isGraphVisualized
    ensures Run(s, [SpeedPicked(ParseIntSpeed(SPEEDS[2].value) as real), PlayPressed]) == LOCKED_UP
    ensures !Consistent(LOCKED_UP) && Guarded(LOCKED_UP)
    ensures Run(LOCKED_UP, later) == LOCKED_UP
    decreases |later|
  {
    var events := [SpeedPicked(ParseIntSpeed(SPEEDS[2].value) as real), PlayPressed];
    FastSpeedBreaksPlayback(0, 0);
    var picked := Step(s, events[0]);
    assert events[1..] == [PlayPressed];
    assert Run(s, events) == Run(picked, [PlayPressed]);
    assert Run(picked, [PlayPressed]) == Run(Step(picked, PlayPressed), []);
    if later != [] {
      assert !Enabled(LOCKED_UP, later[0]);
      FastPlayLocksUp(s, later[1..]);
    }
  }

  /** While a run is in progress, neither the play button nor the maze and
      speed selectors can be used. */
  lemma NoReentrantRun(s: Session, maze: MazeType, v: real)
    requires Guarded(s) && s.flags.running
    ensures !Enabled(s, PlayPressed) && !Enabled(s, MazePicked(maze)) && !Enabled(s, SpeedPicked(v))
  {
  }

  /** Generating a maze, from any session where the selector is live, takes
      the result off display and disables the inputs without setting the
      running flag, so the board's mouse handlers, guarded by that flag alone,
      stay live while the maze is being drawn. */
  lemma MazeLeavesBoardEditable(s: Session, maze: MazeType)
    requires Consistent(s) && Enabled(s, MazePicked(maze)) && maze != NONE
    ensures Step(s, MazePicked(maze)).flags == RunFlags(false, true, false)
    ensures Step(s, MazePicked(maze)).mazePending && Consistent(Step(s, MazePicked(maze)))
  {
  }

  /** At a listed speed, pressing play and waiting shows the result; pressing
      play again clears it and returns to the idle state without starting a run. */
  lemma {:induction false} PlayCycle(speed: real)
    requires IsSpeedValue(speed)
    ensures Run(Idle(speed), [PlayPressed, PlaybackFinished]) == Session(RunFlags(true, false, false), speed, false, false)
    ensures Run(Session(RunFlags(true, false, false), speed, false, false), [PlayPressed]) == Idle(speed)
  {
  }

  // ---------------------------------------------------------------------
  // The component
  // ---------------------------------------------------------------------

  /** What the play button did: cleared the result on display, started a
      run whose completion step is due after `delay` and will put back the
      board captured at the press, or threw on the speed lookup after
      starting the run, leaving nothing scheduled. */
  datatype VisualizerOutcome = GridReset | PlaybackScheduled(delay: real, snapshot: GridType) | PlaybackFailed

  class Nav {
    const pathfinding: PathfindingContext
    const tiles: TileContext
    const speedContext: SpeedContext
    const isVisualizationRunningRef: RunningRef

    var isDisabled: bool
    var startRow: int
    var startCol: int
    var endRow: int
    var endCol: int

    constructor (pathfinding: PathfindingContext, tiles: TileContext, speedContext: SpeedContext,
                 isVisualizationRunningRef: RunningRef)
      ensures this.pathfinding == pathfinding && this.tiles == tiles
      ensures this.speedContext == speedContext && this.isVisualizationRunningRef == isVisualizationRunningRef
      ensures !isDisabled
      ensures startRow == tiles.startTile.row && startCol == tiles.startTile.col
      ensures endRow == tiles.endTile.row && endCol == tiles.endTile.col
    {
      this.pathfinding := pathfinding;
      this.tiles := tiles;
      this.speedContext := speedContext;
      this.isVisualizationRunningRef := isVisualizationRunningRef;
      isDisabled := false;
      startRow := tiles.startTile.row;
      startCol := tiles.startTile.col;
      endRow := tiles.endTile.row;
      endCol := tiles.endTile.col;
    }

    function Flags(): RunFlags
      reads this, pathfinding, isVisualizationRunningRef
    {
      RunFlags(pathfinding.isGraphVisualized, isDisabled, isVisualizationRunningRef.current)
    }

    /** The chosen speed is one of the selector's entries. */
    predicate Valid()
      reads speedContext
    {
      IsSpeedValue(speedContext.speed)
    }

    /** Choosing a maze. "No maze" resets the board; a generator disables the
        inputs, draws the maze and takes any result off display. */
    method HandleGenerateMaze(maze: MazeType,
                              resetGrid: (GridType, TileType, TileType) -> GridType,
                              runMazeAlgorithm: (MazeType, GridType, TileType, TileType, real) -> GridType)
      modifies this`isDisabled, pathfinding`maze, pathfinding`grid, pathfinding`isGraphVisualized
      ensures pathfinding.maze == maze
      ensures Flags() == PickMazeFlags(old(Flags()), maze)
      ensures pathfinding.grid ==
                if maze == NONE then resetGrid(old(pathfinding.grid), tiles.startTile, tiles.endTile)
                else runMazeAlgorithm(maze, old(pathfinding.grid), tiles.startTile, tiles.endTile, speedContext.speed)
    {
      if maze == NONE {
        pathfinding.maze := maze;
        pathfinding.grid := resetGrid(pathfinding.grid, tiles.startTile, tiles.endTile);
        return;
      }
      pathfinding.maze := maze;
      isDisabled := true;
      var newGrid := runMazeAlgorithm(maze, pathfinding.grid, tiles.startTile, tiles.endTile, speedContext.speed);
      pathfinding.grid := newGrid;
      pathfinding.isGraphVisualized := false;
    }

    /** The maze generator's completion callback. */
    method FinishMaze()
      modifies this`isDisabled
      ensures Flags() == MazeDoneFlags(old(Flags()))
    {
      isDisabled := false;
    }

    /** The play button. With a result on display it takes it off and resets
        the board. Otherwise it runs the search, which writes its marks
        (traversed, path, distance, parent) into the board's tiles and returns
        the search result with the board so written; it then disables the
        inputs, sets the running flag and schedules the completion step, which
        puts that board back on display, after the playback delay; when the speed is no entry's value the delay cannot be computed,
        and the handler stops there with the inputs disabled and the running
        flag set. */
    method HandlerRunVisualizer(runPathfindingAlgorithm: (AlgorithmType, GridType, TileType, TileType) -> (SearchResult, GridType),
                                resetGrid: (GridType, TileType, TileType) -> GridType)
      returns (outcome: VisualizerOutcome)
      modifies this`isDisabled, pathfinding`grid, pathfinding`isGraphVisualized, isVisualizationRunningRef`current
      ensures Flags() == PressPlayFlags(old(Flags()))
      ensures old(pathfinding.isGraphVisualized) ==>
                outcome == GridReset && pathfinding.grid == resetGrid(old(pathfinding.grid), tiles.startTile, tiles.endTile)
      ensures !old(pathfinding.isGraphVisualized) ==>
                var (result, searched) := runPathfindingAlgorithm(pathfinding.algorithm, old(pathfinding.grid), tiles.startTile, tiles.endTile);
                pathfinding.grid == searched
                && outcome == match PlaybackDelay(|result.traversedTiles|, |result.path|, speedContext.speed)
                              case None => PlaybackFailed
                              case Some(delay) => PlaybackScheduled(delay, searched)
      ensures outcome.PlaybackScheduled? <==> !old(pathfinding.isGraphVisualized) && Valid()
    {
      if pathfinding.isGraphVisualized {
        pathfinding.isGraphVisualized := false;
        pathfinding.grid := resetGrid(pathfinding.grid, tiles.startTile, tiles.endTile);
        return GridReset;
      }
      var (result, searched) := runPathfindingAlgorithm(pathfinding.algorithm, pathfinding.grid, tiles.startTile, tiles.endTile);
      pathfinding.grid := searched;
      isDisabled := true;
      isVisualizationRunningRef.current := true;
      var delay := PlaybackDelay(|result.traversedTiles|, |result.path|, speedContext.speed);
      if delay.None? {
        return PlaybackFailed;
      }
      outcome := PlaybackScheduled(delay.value, pathfinding.grid);
    }

    /** The completion step: the board the search wrote goes back in, so it
        is drawn, the result is on display and the inputs and the board are
        live again. */
    method FinishPlayback(snapshot: GridType)
      modifies this`isDisabled, pathfinding`grid, pathfinding`isGraphVisualized, isVisualizationRunningRef`current
      ensures Flags() == PlaybackDoneFlags(old(Flags()))
      ensures pathfinding.grid == snapshot
    {
      pathfinding.grid := snapshot;
      pathfinding.isGraphVisualized := true;
      isDisabled := false;
      isVisualizationRunningRef.current := false;
    }

    /** The start tile's row or column input. */
    method UpdateStartTilePosition(row: int, col: int)
      modifies this`startRow, this`startCol, tiles`startTile, pathfinding`grid
      ensures startRow == row && startCol == col
      ensures tiles.startTile == old(tiles.startTile).(row := row, col := col)
      ensures pathfinding.grid == RelocateAnchor(old(pathfinding.grid), StartAnchor, row, col)
    {
      startRow := row;
      startCol := col;
      tiles.startTile := tiles.startTile.(row := row, col := col);
      pathfinding.grid := RelocateAnchor(pathfinding.grid, StartAnchor, row, col);
    }

    /** The end tile's row or column input. */
    method UpdateEndTilePosition(row: int, col: int)
      modifies this`endRow, this`endCol, tiles`endTile, pathfinding`grid
      ensures endRow == row && endCol == col
      ensures tiles.endTile == old(tiles.endTile).(row := row, col := col)
      ensures pathfinding.grid == RelocateAnchor(old(pathfinding.grid), EndAnchor, row, col)
    {
      endRow := row;
      endCol := col;
      tiles.endTile := tiles.endTile.(row := row, col := col);
      pathfinding.grid := RelocateAnchor(pathfinding.grid, EndAnchor, row, col);
    }

    /** The speed selector, with the entry's value taken as a number. */
    method HandleSpeedChange(optionValue: real)
      requires IsSpeedValue(optionValue)
      modifies speedContext`speed
      ensures speedContext.speed == SelectedSpeed(optionValue) && Valid()
    {
      speedContext.speed := SelectedSpeed(optionValue);
    }

    /** The algorithm selector. */
    method HandleAlgorithmChange(algorithm: AlgorithmType)
      modifies pathfinding`algorithm
      ensures pathfinding.algorithm == algorithm
    {
      pathfinding.algorithm := algorithm;
    }
  }
}
