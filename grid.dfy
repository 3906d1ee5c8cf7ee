/** The board component's wall drawing: pressing the mouse on a tile starts
    a stroke and edits that tile, entering further tiles while the button is
    held edits them too, and releasing ends the stroke. Every handler does
    nothing while a visualization runs or on a tile the anchor test
    accepts. How a tile is edited (`createNewGrid`) and the anchor test
    (`checkIfStartOrEnd`) are not part of this model; they are parameters. */
module GridComponent {
  import opened Types
  import opened Contexts

  /** The drag flag and the board. */
  datatype DragState = DragState(isMouseDown: bool, grid: GridType)

  /** Pressing the mouse on a tile; `edited` is the board with that tile edited. */
  function OnMouseDown(s: DragState, running: bool, onAnchor: bool, edited: GridType): DragState
  {
    if running || onAnchor then s else DragState(true, edited)
  }

  /** Releasing the mouse over a tile. */
  function OnMouseUp(s: DragState, running: bool, onAnchor: bool): DragState
  {
    if running || onAnchor then s else s.(isMouseDown := false)
  }

  /** Moving onto a tile; `edited` is the board with that tile edited. */
  function OnMouseEnter(s: DragState, running: bool, onAnchor: bool, edited: GridType): DragState
  {
    if running || onAnchor then s
    else if s.isMouseDown then s.(grid := edited)
    else s
  }

  datatype MouseEvent = MouseDown(row: int, col: int) | MouseUp(row: int, col: int) | MouseEnter(row: int, col: int)

  function Apply(s: DragState, running: bool, e: MouseEvent,
                 checkIfStartOrEnd: (int, int) -> bool,
                 createNewGrid: (GridType, int, int) -> GridType): DragState
  {
    var onAnchor := checkIfStartOrEnd(e.row, e.col);
    match e
    case MouseDown(r, c) => OnMouseDown(s, running, onAnchor, createNewGrid(s.grid, r, c))
    case MouseUp(_, _) => OnMouseUp(s, running, onAnchor)
    case MouseEnter(r, c) => OnMouseEnter(s, running, onAnchor, createNewGrid(s.grid, r, c))
  }

  /** The state after a sequence of mouse events. The handlers never change
      the running flag, so it is the same for the whole sequence. */
  function Replay(s: DragState, running: bool, events: seq<MouseEvent>,
                  checkIfStartOrEnd: (int, int) -> bool,
                  createNewGrid: (GridType, int, int) -> GridType): DragState
    decreases |events|
  {
    if events == [] then s
    else Replay(Apply(s, running, events[0], checkIfStartOrEnd, createNewGrid), running, events[1..],
                checkIfStartOrEnd, createNewGrid)
  }

  /** The board edited at each of `cells` in turn. */
  function EditAll(grid: GridType, cells: seq<Position>, createNewGrid: (GridType, int, int) -> GridType): GridType
    decreases |cells|
  {
    if cells == [] then grid else EditAll(createNewGrid(grid, cells[0].0, cells[0].1), cells[1..], createNewGrid)
  }

  /** While a visualization runs, no sequence of mouse events changes the
      board or the drag flag. */
  lemma {:induction false} RunningFreezesBoard(s: DragState, events: seq<MouseEvent>,
                                               checkIfStartOrEnd: (int, int) -> bool,
                                               createNewGrid: (GridType, int, int) -> GridType)
    ensures Replay(s, true, events, checkIfStartOrEnd, createNewGrid) == s
    decreases |events|
  {
    if events != [] {
      RunningFreezesBoard(s, events[1..], checkIfStartOrEnd, createNewGrid);
    }
  }

  /** Events on a tile the anchor test accepts are ignored, whatever the state. */
  lemma AnchorsIgnored(s: DragState, running: bool, e: MouseEvent,
                       checkIfStartOrEnd: (int, int) -> bool,
                       createNewGrid: (GridType, int, int) -> GridType)
    requires checkIfStartOrEnd(e.row, e.col)
    ensures Apply(s, running, e, checkIfStartOrEnd, createNewGrid) == s
  {
  }

  /** Releasing never edits the board. */
  lemma MouseUpKeepsBoard(s: DragState, running: bool, onAnchor: bool)
    ensures OnMouseUp(s, running, onAnchor).grid == s.grid
    ensures OnMouseUp(s, running, onAnchor).isMouseDown == (s.isMouseDown && (running || onAnchor))
  {
  }

  /** Without a press, hovering and releasing never edit the board: edits
      happen only while the button is held. */
  lemma {:induction false} HoverAloneKeepsBoard(s: DragState, running: bool, events: seq<MouseEvent>,
                                                checkIfStartOrEnd: (int, int) -> bool,
                                                createNewGrid: (GridType, int, int) -> GridType)
    requires !s.isMouseDown
    requires forall k :: 0 <= k < |events| ==> !events[k].MouseDown?
    ensures Replay(s, running, events, checkIfStartOrEnd, createNewGrid) == s
    decreases |events|
  {
    if events != [] {
      assert Apply(s, running, events[0], checkIfStartOrEnd, createNewGrid) == s;
      HoverAloneKeepsBoard(s, running, events[1..], checkIfStartOrEnd, createNewGrid);
    }
  }

  /** A stroke: with the button held and no visualization running, entering
      tiles the anchor test rejects edits each of them, in the order entered. */
  lemma {:induction false} StrokeEditsEachTile(s: DragState, cells: seq<Position>,
                                               checkIfStartOrEnd: (int, int) -> bool,
                                               createNewGrid: (GridType, int, int) -> GridType)
    requires s.isMouseDown
    requires forall k :: 0 <= k < |cells| ==> !checkIfStartOrEnd(cells[k].0, cells[k].1)
    ensures Replay(s, false, seq(|cells|, k requires 0 <= k < |cells| => MouseEnter(cells[k].0, cells[k].1)),
                   checkIfStartOrEnd, createNewGrid)
         == DragState(true, EditAll(s.grid, cells, createNewGrid))
    decreases |cells|
  {
    var events := seq(|cells|, k requires 0 <= k < |cells| => MouseEnter(cells[k].0, cells[k].1));
    if cells != [] {
      var next := DragState(true, createNewGrid(s.grid, cells[0].0, cells[0].1));
      assert Apply(s, false, events[0], checkIfStartOrEnd, createNewGrid) == next;
      assert events[1..] == seq(|cells[1..]|, k requires 0 <= k < |cells[1..]| => MouseEnter(cells[1..][k].0, cells[1..][k].1));
      StrokeEditsEachTile(next, cells[1..], checkIfStartOrEnd, createNewGrid);
    }
  }

  /** Releasing on a tile the anchor test accepts does not end the stroke:
      the next tile entered that it rejects is still edited although the
      button is up. */
  lemma ReleaseOverAnchorKeepsDrawing(grid: GridType, anchor: Position, other: Position,
                                      checkIfStartOrEnd: (int, int) -> bool,
                                      createNewGrid: (GridType, int, int) -> GridType)
    requires checkIfStartOrEnd(anchor.0, anchor.1) && !checkIfStartOrEnd(other.0, other.1)
    ensures Replay(DragState(true, grid), false,
                   [MouseUp(anchor.0, anchor.1), MouseEnter(other.0, other.1)],
                   checkIfStartOrEnd, createNewGrid)
         == DragState(true, createNewGrid(grid, other.0, other.1))
  {
    var events := [MouseUp(anchor.0, anchor.1), MouseEnter(other.0, other.1)];
    var held := DragState(true, grid);
    assert Apply(held, false, events[0], checkIfStartOrEnd, createNewGrid) == held;
    assert events[1..] == [MouseEnter(other.0, other.1)];
    assert Replay(held, false, events[1..], checkIfStartOrEnd, createNewGrid)
        == Replay(Apply(held, false, events[1], checkIfStartOrEnd, createNewGrid), false, [], checkIfStartOrEnd, createNewGrid);
  }

  /** The board component: its own drag flag, the shared board and the shared
      running flag. */
  class Grid {
    const pathfinding: PathfindingContext
    const isVisualizationRunningRef: RunningRef
    var isMouseDown: bool

    constructor (pathfinding: PathfindingContext, isVisualizationRunningRef: RunningRef)
      ensures this.pathfinding == pathfinding && this.isVisualizationRunningRef == isVisualizationRunningRef
      ensures !isMouseDown
    {
      this.pathfinding := pathfinding;
      this.isVisualizationRunningRef := isVisualizationRunningRef;
      isMouseDown := false;
    }

    function State(): DragState
      reads this, pathfinding
    {
      DragState(isMouseDown, pathfinding.grid)
    }

    method HandleMouseDown(row: int, col: int,
                           checkIfStartOrEnd: (int, int) -> bool,
                           createNewGrid: (GridType, int, int) -> GridType)
      modifies this`isMouseDown, pathfinding`grid
      ensures State() == OnMouseDown(old(State()), isVisualizationRunningRef.current,
                                     checkIfStartOrEnd(row, col), createNewGrid(old(pathfinding.grid), row, col))
    {
      if isVisualizationRunningRef.current || checkIfStartOrEnd(row, col) {
        return;
      }
      isMouseDown := true;
      var newGrid := createNewGrid(pathfinding.grid, row, col);
      pathfinding.grid := newGrid;
    }

    method HandleMouseUp(row: int, col: int, checkIfStartOrEnd: (int, int) -> bool)
      modifies this`isMouseDown
      ensures State() == OnMouseUp(old(State()), isVisualizationRunningRef.current, checkIfStartOrEnd(row, col))
    {
      if isVisualizationRunningRef.current || checkIfStartOrEnd(row, col) {
        return;
      }
      isMouseDown := false;
    }

    method HandleMouseEnter(row: int, col: int,
                            checkIfStartOrEnd: (int, int) -> bool,
                            createNewGrid: (GridType, int, int) -> GridType)
      modifies pathfinding`grid
      ensures State() == OnMouseEnter(old(State()), isVisualizationRunningRef.current,
                                      checkIfStartOrEnd(row, col), createNewGrid(old(pathfinding.grid), row, col))
    {
      if isVisualizationRunningRef.current || checkIfStartOrEnd(row, col) {
        return;
      }
      if isMouseDown {
        var newGrid := createNewGrid(pathfinding.grid, row, col);
        pathfinding.grid := newGrid;
      }
    }
  }
}
