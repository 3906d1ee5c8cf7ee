/** How one board cell is drawn: a style chosen from its flags by a fixed
    priority, a border chosen from its position, and the two anchor icons. */
module TileComponent {
  import opened Constants

  /** The style of a tile. A wall looks like a wall whatever else holds; a
      path tile looks like a path unless it is a wall; a traversed tile looks
      traversed unless it is a wall or a path tile. Start and end tiles share
      the plain style, so a tile looks plain exactly when it is none of wall,
      path and traversed. */
  function TileStyle(isStart: bool, isEnd: bool, isTraversed: bool, isWall: bool, isPath: bool): (style: string)
    ensures style == TILE_STYLE <==> !isWall && !isPath && !isTraversed
    ensures style in {TILE_STYLE, WALL_TILE_STYLE, PATH_TILE_STYLE, TRAVERSED_TILE_STYLE}
  {
    StyleStrings();
    if isWall then WALL_TILE_STYLE
    else if isPath then PATH_TILE_STYLE
    else if isTraversed then TRAVERSED_TILE_STYLE
    else if isStart then START_TILE_STYLE
    else if isEnd then END_TILE_STYLE
    else TILE_STYLE
  }

  /** The flag that decides a tile's look, as an independent reference. */
  datatype Shade = WallShade | PathShade | TraversedShade | NoShade

  function ShadeOf(isTraversed: bool, isWall: bool, isPath: bool): Shade
  {
    if isWall then WallShade
    else if isPath then PathShade
    else if isTraversed then TraversedShade
    else NoShade
  }

  /** Two tiles get the same style exactly when the same flag decides their
      look: the style shows the highest-priority flag among wall, path and
      traversed, and never whether the tile is an anchor. */
  lemma StyleShowsDecidingFlag(
    st1: bool, en1: bool, tr1: bool, w1: bool, p1: bool,
    st2: bool, en2: bool, tr2: bool, w2: bool, p2: bool)
    ensures TileStyle(st1, en1, tr1, w1, p1) == TileStyle(st2, en2, tr2, w2, p2)
        <==> ShadeOf(tr1, w1, p1) == ShadeOf(tr2, w2, p2)
  {
    StyleStrings();
  }

  /** The priority chain: wall over everything, path over traversed and the
      anchors, traversed over the anchors. */
  lemma StylePriority(isStart: bool, isEnd: bool, isTraversed: bool, isPath: bool)
    ensures TileStyle(isStart, isEnd, isTraversed, true, isPath) == WALL_TILE_STYLE
    ensures TileStyle(isStart, isEnd, isTraversed, false, true) == PATH_TILE_STYLE
    ensures TileStyle(isStart, isEnd, true, false, false) == TRAVERSED_TILE_STYLE
    ensures TileStyle(isStart, isEnd, false, false, false) == TILE_STYLE
  {
  }

  /** The border class: bottom row first, then the left column, else none. */
  function BorderStyle(row: int, col: int): (border: string)
    ensures border == "border-b" <==> row == MAX_ROWS - 1
    ensures border == "border-l" <==> row != MAX_ROWS - 1 && col == 0
    ensures border == "" <==> row != MAX_ROWS - 1 && col != 0
  {
    if row == MAX_ROWS - 1 then "border-b" else if col == 0 then "border-l" else ""
  }

  /** The extra left border, given only to the bottom-left corner. */
  function EdgeStyle(row: int, col: int): (edge: string)
    ensures edge == "border-l" <==> row == MAX_ROWS - 1 && col == 0
    ensures edge == "" <==> !(row == MAX_ROWS - 1 && col == 0)
  {
    if row == MAX_ROWS - 1 && col == 0 then "border-l" else ""
  }

  /** Together the two classes give every tile of the left column a left
      border (the corner, whose border class is the bottom one, gets it from
      the edge class) and no other tile one. */
  lemma LeftColumnBordered(row: int, col: int)
    ensures col == 0 <==> (BorderStyle(row, col) == "border-l" || EdgeStyle(row, col) == "border-l")
    ensures row == MAX_ROWS - 1 <==> BorderStyle(row, col) == "border-b"
  {
  }

  /** What one tile shows: its classes, in the order they are merged, and
      which anchor icons it carries. */
  datatype TileView = TileView(classNames: seq<string>, showsEndIcon: bool, showsStartIcon: bool)

  function RenderTile(row: int, col: int, isStart: bool, isEnd: bool, isTraversed: bool, isWall: bool, isPath: bool): (view: TileView)
    ensures view.showsEndIcon == isEnd && view.showsStartIcon == isStart
    ensures |view.classNames| == 3 && view.classNames[0] in {TILE_STYLE, WALL_TILE_STYLE, PATH_TILE_STYLE, TRAVERSED_TILE_STYLE}
  {
    TileView([TileStyle(isStart, isEnd, isTraversed, isWall, isPath), BorderStyle(row, col), EdgeStyle(row, col)], isEnd, isStart)
  }

  /** The anchor icons do not depend on the style: a start or end tile that
      is covered by a wall, path or traversed style still shows its icon. */
  lemma IconsIndependentOfStyle(row: int, col: int, isStart: bool, isEnd: bool,
                                tr1: bool, w1: bool, p1: bool, tr2: bool, w2: bool, p2: bool)
    ensures RenderTile(row, col, isStart, isEnd, tr1, w1, p1).showsStartIcon
         == RenderTile(row, col, isStart, isEnd, tr2, w2, p2).showsStartIcon
    ensures RenderTile(row, col, isStart, isEnd, tr1, w1, p1).showsEndIcon
         == RenderTile(row, col, isStart, isEnd, tr2, w2, p2).showsEndIcon
  {
  }
}
