# Pathfindr editing and control core, in Dafny

Pathfindr is a grid pathfinding visualizer. The user draws walls on a 35 × 55
board, moves the start and end tiles, picks a search algorithm, a maze
generator and a playback speed, and watches a replay of the search. This
project models the logic around the search engine:

- **Configuration** (`constants.dfy`, module `Constants`): the board size, the default start and
  end tiles, the tile style strings, the selector entries, the speed factors
  and the two sleep times.
- **Tile look** (`tile.dfy`, module `TileComponent`): the priority chain that picks a tile's
  style from its flags, the border classes picked from its position, and
  the anchor icons.
- **Wall drawing** (`grid.dfy`, module `GridComponent`): the three mouse handlers of the
  board. They work over the drag flag, the shared board and the shared
  "visualization running" flag. They are pure transition functions plus a
  `Grid` class whose methods are proved against them.
- **Navigation bar** (`nav.dfy`, module `NavComponent`):
  - moving the start or end tile, as a pure transform of the board;
  - the speed lookup and the playback delay formula;
  - the play button and the maze selector, with their timer callbacks, as a
    flag machine;
  - a `Nav` class whose methods update the shared state.
- **Tutorial** (`tutorial.dfy`, module `TutorialComponent`): the six-page onboarding overlay.
- **Shared state** (`contexts.dfy`, module `Contexts`): the running flag and the three
  context objects. `types.dfy` (module `Types`) holds the tile, board and selector types.

Some helpers live in files that are not part of this model:
`createNewGrid`, `checkIfStartOrEnd`, `resetGrid`, `runMazeAlgorithm` and
`runPathfindingAlgorithm`. The methods take them as function parameters, so
every contract about them holds for every implementation of them. The
session machine also assumes how the unseen `Select` and `PlayButton`
controls treat their `isDisabled` prop; see "## Left out". A timer callback is a
method of its own, called when the timer fires (`FinishPlayback`,
`FinishMaze`). In the pure machine, the pending timers are part of the
state.

Moving the start or end tile (`src/components/Nav.tsx:109-143`) does no
bounds, wall or other-anchor check, and moving an anchor onto its own tile
removes it. The model states exactly that.

## Model

| member | source | states |
|---|---|---|
| `Constants.DefaultAnchorsOnBoard` | src/utils/constants.ts:3-28 | The board is 35 × 55. The default start is (10, 10) and the default end is (MAX_ROWS-25, MAX_COLS-20) = (10, 35). Both lie on the board, on different tiles. |
| `Constants.DefaultAnchorFlags` | src/utils/constants.ts:6-28 | The start configuration is start and not end; the end configuration is the reverse. Both are non-wall, non-path and non-traversed, with distance 0 and no parent. |
| `Constants.SpeedsDecreasing` | src/utils/constants.ts:51-55 | The speed factors are 2, 1 and 0.5 in that order. They are positive and strictly decreasing from Slow to Fast. |
| `Constants.SleepTimes` | src/utils/constants.ts:57-58 | The sleep time is 8 ms and the extended sleep time 30 ms; both are positive and the extended one is longer. |
| `Constants.SpeedValues` | src/utils/constants.ts:51-55 | A value belongs to some speed entry exactly when it is 2, 1 or 0.5. |
| `Constants.MazeKeysDistinct` | src/utils/constants.ts:38-42 | The maze keys are exactly NONE, BINARY_TREE and RECURSIVE_DIVISION, and no key appears twice. |
| `Constants.AlgorithmKeysDistinct` | src/utils/constants.ts:44-49 | The algorithm keys are exactly DIJKSTRA, A_STAR, BFS and DFS, and no key appears twice. |
| `Constants.StyleStrings` | src/utils/constants.ts:30-36 | Start and end tiles share the plain style. The traversed, wall and path styles differ from it and from one another. |
| `Contexts.RunningRef.constructor` | src/App.tsx:11 | The shared running flag starts cleared. |
| `TileComponent.TileStyle` | src/components/Tile.tsx:42-56 | A tile gets the plain style exactly when it is not a wall, not a path and not traversed. Start and end tiles are plain too. The style is always one of the four style strings. |
| `TileComponent.StyleShowsDecidingFlag` | src/components/Tile.tsx:44-56 | Two tiles get the same style exactly when the same flag decides their look: wall over path over traversed over none. Start and end never show in the style. |
| `TileComponent.StylePriority` | src/components/Tile.tsx:44-56 | A wall gets the wall style whatever else holds. A path tile beats traversed, start and end. A traversed tile beats start and end. |
| `TileComponent.BorderStyle` | src/components/Tile.tsx:58-59 | A bottom-row tile gets `border-b`. Otherwise a column-0 tile gets `border-l`. Every other tile gets no border class. |
| `TileComponent.EdgeStyle` | src/components/Tile.tsx:60 | The edge class is `border-l` exactly on the bottom-left corner (MAX_ROWS-1, 0), and empty elsewhere. |
| `TileComponent.LeftColumnBordered` | src/components/Tile.tsx:58-60 | Taken together, the border and edge classes give a left border to exactly the column-0 tiles, the corner included. A bottom border goes to exactly the bottom row. |
| `TileComponent.RenderTile` | src/components/Tile.tsx:62-75 | The end icon shows iff the tile is the end, and the start icon iff it is the start. Three classes are merged, and the first is one of the tile styles. |
| `TileComponent.IconsIndependentOfStyle` | src/components/Tile.tsx:70-73 | Whether the anchor icons show does not depend on the wall, path and traversed flags. |
| `TutorialComponent.Rendered` | src/components/Tutorial.tsx:195-201 | A closed overlay renders nothing. An open one shows the title of a page from the list. |
| `TutorialComponent.ReplayKeepsStepInRange` | src/components/Tutorial.tsx:177-193 | After any sequence of next, previous and skip clicks, the current page stays within [0, 5]. |
| `TutorialComponent.ClosedStaysClosed` | src/components/Tutorial.tsx:177-195 | No click reopens a closed overlay, so after it closes it renders nothing. |
| `TutorialComponent.NextWalksThePages` | src/components/Tutorial.tsx:177-183 | Starting open on page i, n presses of next reach page i + n while that is a page. Once past the last page, the overlay is closed and stays on page 5. |
| `TutorialComponent.ClosedNextIsIdle` | src/components/Tutorial.tsx:177-183 | Closed on the last page, further presses of next change nothing. |
| `TutorialComponent.Tutorial.constructor` | src/components/Tutorial.tsx:174-175 | The overlay starts open on page 0. |
| `TutorialComponent.Tutorial.HandleNext` | src/components/Tutorial.tsx:177-183 | Before the last page it moves one page on. On the last page it closes the overlay and keeps the page. The page stays in range. |
| `TutorialComponent.Tutorial.HandlePrev` | src/components/Tutorial.tsx:185-189 | It moves one page back, and does nothing on page 0. |
| `TutorialComponent.Tutorial.HandleSkip` | src/components/Tutorial.tsx:191-193 | It closes the overlay from any page and keeps the page. |
| `TutorialComponent.Tutorial.Render` | src/components/Tutorial.tsx:195-201 | Nothing is shown when closed. Otherwise the current page's title is shown. The output is `Rendered` of the current state, so it inherits `ClosedStaysClosed`. |
| `GridComponent.RunningFreezesBoard` | src/components/Grid.tsx:20-47 | While a visualization runs, no sequence of mouse events changes the board or the drag flag. |
| `GridComponent.AnchorsIgnored` | src/components/Grid.tsx:21-23 | A press, release or enter on a tile the anchor test accepts changes nothing. |
| `GridComponent.MouseUpKeepsBoard` | src/components/Grid.tsx:30-36 | A release never edits the board. It clears the drag flag only on a tile the anchor test rejects and while no visualization runs, so a release on a tile it accepts leaves drag mode on. |
| `GridComponent.HoverAloneKeepsBoard` | src/components/Grid.tsx:38-47 | With the button up, any sequence of enters and releases leaves the board and the drag flag unchanged. |
| `GridComponent.StrokeEditsEachTile` | src/components/Grid.tsx:38-47 | With the button held and no run in progress, entering tiles the anchor test rejects edits each of them in the order entered. |
| `GridComponent.ReleaseOverAnchorKeepsDrawing` | src/components/Grid.tsx:30-47 | After a release on a tile the anchor test accepts, the next tile entered that it rejects is still edited and drag mode stays on. |
| `GridComponent.Grid.constructor` | src/components/Grid.tsx:18 | The drag flag starts cleared. |
| `GridComponent.Grid.HandleMouseDown` | src/components/Grid.tsx:20-28 | While running or on a tile the anchor test accepts, nothing changes. Otherwise the drag flag is set and the board becomes `createNewGrid(board, row, col)`. |
| `GridComponent.Grid.HandleMouseUp` | src/components/Grid.tsx:30-36 | While running or on a tile the anchor test accepts, nothing changes. Otherwise the drag flag is cleared. The board is never touched. |
| `GridComponent.Grid.HandleMouseEnter` | src/components/Grid.tsx:38-47 | The board becomes `createNewGrid(board, row, col)` only when not running, on a tile the anchor test rejects and with the drag flag set. |
| `NavComponent.RelocateAnchor` | src/components/Nav.tsx:113-123 | The board shape is kept. Each tile changes in at most the one anchor flag. Afterwards a tile carries the flag exactly when it did not before and its own coordinates are (row, col). |
| `NavComponent.RelocatedAnchorPositions` | src/components/Nav.tsx:109-124 | On a board whose tiles know their places, the flag ends up on (row, col) alone when that tile exists and did not carry it already. Otherwise it ends up nowhere: a move onto the anchor's own tile or off the board leaves no anchor. The target gains the flag even when it is a wall or the other anchor. |
| `NavComponent.RelocateKeepsOtherAnchor` | src/components/Nav.tsx:127-143 | Moving one anchor leaves the other anchor's flags exactly where they were. Moving the end never touches a start flag, and the reverse. |
| `NavComponent.FindSpeed` | src/components/Nav.tsx:105 | The lookup finds nothing exactly when no entry has the value. Otherwise it returns the first entry with that value. |
| `NavComponent.PlaybackDelay` | src/components/Nav.tsx:102-105 | The delay exists exactly when the speed is an entry's value. It then equals 8·(traversed + 16) + 30·(path + 60)·speed, because the lookup returns the speed itself. |
| `NavComponent.PlaybackDelayMonotone` | src/components/Nav.tsx:102-105 | The delay never decreases as the traversed count or the path length grows. |
| `NavComponent.SlowerSpeedLongerPlayback` | src/components/Nav.tsx:102-105 | A larger speed factor (a slower setting) gives a strictly longer delay. |
| `NavComponent.ParseIntSpeed` | src/components/Nav.tsx:176 | `parseInt` of an offered speed value's text keeps its integer part. |
| `NavComponent.FastSpeedBreaksPlayback` | src/components/Nav.tsx:102-105 | Through `parseInt`, Slow and Medium keep their factors, but Fast becomes 0. No entry has the value 0, so the delay lookup fails. |
| `NavComponent.SelectedSpeedIsListed` | src/components/Nav.tsx:175-177 | When the option value is taken as a number, every offered speed is found. The delay then follows the formula with that entry's factor. |
| `NavComponent.RunKeepsGuard` | src/components/Nav.tsx:55-107 | Over any sequence of clicks, speed choices and timer firings, the as-written "Fast" included: the running flag is only set while the inputs are disabled, a pending playback keeps it set, a pending maze keeps the inputs disabled and the running flag clear, and the two timers are never pending together. |
| `NavComponent.RunKeepsConsistent` | src/components/Nav.tsx:55-107 | When every speed chosen is an entry's value (the intended selector), over any sequence of events: the running flag is set exactly while a playback is pending, the inputs are disabled exactly while a playback or a maze is pending, and the two are never pending together, so every run ends. |
| `NavComponent.FastPlayLocksUp` | src/components/Nav.tsx:92-105 | With the selector as written, choosing "Fast" and pressing play from a consistent session with live inputs and no result on display sets the running flag and disables the inputs with no timer pending. That session is not consistent, and no later event changes it. |
| `NavComponent.NoReentrantRun` | src/components/Nav.tsx:92-93 | While the running flag is set, neither the play button nor the maze and speed selectors can be used. |
| `NavComponent.MazeLeavesBoardEditable` | src/components/Nav.tsx:62-74 | From any consistent session where the selector is live, a result on display included, choosing a generator takes the result off display and disables the inputs, but leaves the running flag cleared; the session stays consistent. |
| `NavComponent.PlayCycle` | src/components/Nav.tsx:78-101 | At any listed speed, play followed by the completion step puts the result on display and frees the inputs. Pressing play again clears the result without starting a run. |
| `NavComponent.Nav.constructor` | src/components/Nav.tsx:49-53 | The inputs start enabled. The row and column inputs start at the current start and end tiles. |
| `NavComponent.Nav.HandleGenerateMaze` | src/components/Nav.tsx:55-75 | The maze key is stored. NONE resets the board and changes no flag. A generator draws on the board, disables the inputs and clears the result on display. |
| `NavComponent.Nav.FinishMaze` | src/components/Nav.tsx:69 | The generator's completion callback re-enables the inputs. |
| `NavComponent.Nav.HandlerRunVisualizer` | src/components/Nav.tsx:77-107 | With a result on display, it clears it, resets the board and starts nothing. Otherwise the board becomes the one the search wrote its marks into, and the inputs are disabled and the running flag set. The completion step is scheduled after the playback delay with that board, exactly when the speed is an entry's value; otherwise it fails with nothing scheduled and the flags left set. |
| `NavComponent.Nav.FinishPlayback` | src/components/Nav.tsx:95-101 | The board the search wrote is put back, so it is drawn, and the result is on display. The inputs are enabled and the running flag is cleared. |
| `NavComponent.Nav.UpdateStartTilePosition` | src/components/Nav.tsx:109-125 | The row and column inputs and the start tile take the new coordinates. The board is the start-flag relocation of the old board. |
| `NavComponent.Nav.UpdateEndTilePosition` | src/components/Nav.tsx:127-143 | The same for the end tile and the end flag. |
| `NavComponent.Nav.HandleSpeedChange` | src/components/Nav.tsx:175-177 | The chosen entry's value becomes the speed, taken as a number (see Findings), so the speed stays an entry's value. |
| `NavComponent.Nav.HandleAlgorithmChange` | src/components/Nav.tsx:166-168 | The chosen algorithm key is stored. |

## Left out

- The search algorithms, the maze generators, the board reset, the wall toggle and the anchor test: `runPathfindingAlgorithm`, `runMazeAlgorithm`, `resetGrid`, `createNewGrid` and `checkIfStartOrEnd`. Their source is not part of this model, so they are uninterpreted parameters. The anchor test takes only a row and a column, so the model does not tie it to the anchors on the board; the board handlers' contracts speak of the tiles it accepts.
- The replay animation (`animatePath`) is not part of this model. Its call at `src/components/Nav.tsx:91` is taken to schedule visual effects only, touching no state the model holds.
- `Select` and `PlayButton` are not part of this model. `NavComponent.Enabled` assumes that a control whose `isDisabled` prop is set (`src/components/Nav.tsx:156, 164, 174, 180`) ignores input. `NavComponent.NoReentrantRun`, `NavComponent.RunKeepsGuard`, `NavComponent.RunKeepsConsistent` and the "no later event changes it" part of `NavComponent.FastPlayLocksUp` rest on that.
- Timers: a `setTimeout` callback is a separate step that the caller invokes. No time passes in the model.
- The maze generator is taken to draw its walls over time and to call the `setIsDisabled` it is handed (`src/components/Nav.tsx:63-70`) with `false` exactly once, when done. The model applies its final board at once, and `FinishMaze` is that completion callback. The "every run ends" part of `NavComponent.RunKeepsConsistent` rests on this.
- `resetGrid`, the maze generator and the search change tile objects in place, and the board is shared through shallow copies (`grid.slice()`). The model treats the board as a value: the reset's result replaces the board, and the search returns the board with its marks (traversed, path, distance, parent) alongside its result. The model does not capture aliasing between the captured board and later edits.
- React mechanics (`useState`, `useContext`, re-rendering) become fields of classes updated by methods. Context providers, their initial values and `useSpeed` are not part of this model.
- The row and column number inputs parse their text with `parseInt`, which can give NaN. Rows and columns are plain integers here; out-of-range values are covered.
- Markup, icons, images, videos, the tutorial page bodies, the tile's `id` attribute and the class merging done by `twMerge` are rendering only.
- `TileType.distance` is an integer. Non-finite numbers are not represented; the modelled code only ever writes 0.
- A tile's `parent` is a coordinate pair, not a reference to another tile.
- Device detection and event-listener registration in `src/App.tsx` are I/O. Only the running flag's initial value is modelled. The model describes the components while they stay mounted: when the screen narrows and widens again (`src/App.tsx:27-40`), the tutorial reopens on page 0 and `isDisabled` starts false again, while the App-level running flag keeps its value, so a pending playback leaves it set with live inputs until its timer fires.
- `NavComponent.RunKeepsConsistent` holds only when every speed chosen is an entry's value. With the selector as written, "Fast" breaks it for good, as `NavComponent.FastPlayLocksUp` shows; `NavComponent.RunKeepsGuard` is what holds for every sequence.
- The speed provider's initial value is not part of this model. The machine starts from any session, and `NavComponent.PlayCycle` from any listed speed.
- `NavComponent.Nav.HandleSpeedChange` models the corrected speed parsing, not the `parseInt` the source uses. The source's behaviour is `NavComponent.ParseIntSpeed` (see Findings).

## Findings

| source | as written | input that shows it | evidently intended | confidence | as-written member | corrected member |
|---|---|---|---|---|---|---|
| src/components/Nav.tsx:176 | The speed selector stores `parseInt` of the entry's value. For "Fast" (0.5) this is 0. At lines 102-105, `SPEEDS.find` finds no entry with value 0, and `!.value` throws. This happens after lines 92-93 have already disabled the inputs and set the running flag, and no completion step is ever scheduled, so every input stays disabled and the running flag stays set for good. | Choose "Fast", then press play. | The entry's value taken as a number (2, 1 or 0.5), so that the lookup always succeeds. | medium, not executed (the selector component is not part of this model) | `NavComponent.FastSpeedBreaksPlayback`, `NavComponent.FastPlayLocksUp` | `NavComponent.SelectedSpeedIsListed`, `NavComponent.RunKeepsConsistent` |
