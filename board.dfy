/**
 * The board resource and its mouse-to-board coordinate mapping
 * (board_plugin/src/resources/board.rs).
 */
module BoardResource {
  import opened Wrappers
  import opened Vectors
  import opened Bounds

  /** Opaque id of the board's root entity in the engine's scene graph. */
  type EntityId = nat

  /** A point in board-local space (continuous, not a grid cell). */
  datatype Coordinates = Coordinates(x: real, y: real)

  /** The size of the window the pointer position is reported in. */
  datatype Window = Window(width: real, height: real)

  /** The single live board: its bounds in world space and its root entity. */
  datatype Board = Board(bounds: Bounds2, entity: EntityId)

  /** Shifts a window-space point into world space, whose origin is the window centre. */
  function WindowToWorld(window: Window, position: Vec2): (w: Vec2)
    ensures w.x + window.width / 2.0 == position.x && w.y + window.height / 2.0 == position.y
  {
    Vec2(position.x - window.width / 2.0, position.y - window.height / 2.0)
  }

  /**
   * `Board::mouse_position`: the board-local coordinates of a pointer, or
   * `None` when the pointer lies outside the board. `inBounds` is the
   * bounds' containment test.
   */
  function MousePosition(board: Board, window: Window, position: Vec2,
                         inBounds: (Bounds2, Vec2) -> bool): (r: Option<Coordinates>)
    ensures r.None? <==> !inBounds(board.bounds, WindowToWorld(window, position))
    // the world point is the board's corner moved by the coordinates
    ensures r.Some? ==>
      WindowToWorld(window, position)
        == Vec2(board.bounds.position.x + r.value.x, board.bounds.position.y + r.value.y)
  {
    var world := WindowToWorld(window, position);
    if !inBounds(board.bounds, world) then
      None
    else
      var local := Vec2(world.x - board.bounds.position.x, world.y - board.bounds.position.y);
      Some(Coordinates(local.x, local.y))
  }

  /** Where a board-local point appears in the window. */
  function BoardToWindow(board: Board, window: Window, c: Coordinates): Vec2 {
    Vec2(c.x + board.bounds.position.x + window.width / 2.0,
         c.y + board.bounds.position.y + window.height / 2.0)
  }

  /** Mapping the coordinates back to the window recovers the pointer position. */
  lemma MousePositionRoundTrip(board: Board, window: Window, position: Vec2,
                               inBounds: (Bounds2, Vec2) -> bool)
    requires MousePosition(board, window, position, inBounds).Some?
    ensures BoardToWindow(board, window, MousePosition(board, window, position, inBounds).value)
            == position
  {
  }

  /** Every board-local point whose world point is in bounds is reached from its window position. */
  lemma MousePositionReaches(board: Board, window: Window, c: Coordinates,
                             inBounds: (Bounds2, Vec2) -> bool)
    requires inBounds(board.bounds, Vec2(board.bounds.position.x + c.x, board.bounds.position.y + c.y))
    ensures MousePosition(board, window, BoardToWindow(board, window, c), inBounds) == Some(c)
  {
    var world := WindowToWorld(window, BoardToWindow(board, window, c));
    assert world == Vec2(board.bounds.position.x + c.x, board.bounds.position.y + c.y);
  }

  /** With any rectangle test, the coordinates lie within the board's extent. */
  lemma MousePositionWithinBoard(board: Board, window: Window, position: Vec2,
                                 inBounds: (Bounds2, Vec2) -> bool)
    requires RectangleTest(inBounds)
    requires MousePosition(board, window, position, inBounds).Some?
    ensures var c := MousePosition(board, window, position, inBounds).value;
      0.0 <= c.x <= board.bounds.size.x && 0.0 <= c.y <= board.bounds.size.y
  {
    assert ClosedContains(board.bounds, WindowToWorld(window, position));
  }

  /** The centre of a 700x800 window maps to the middle of a default-placed 500x800 board. */
  lemma MousePositionAtWindowCentre(entity: EntityId, inBounds: (Bounds2, Vec2) -> bool)
    requires RectangleTest(inBounds)
    ensures MousePosition(Board(Bounds2(Vec2(-250.0, -400.0), Vec2(500.0, 800.0)), entity),
                          Window(700.0, 800.0), Vec2(350.0, 400.0), inBounds)
            == Some(Coordinates(250.0, 400.0))
  {
    assert OpenContains(Bounds2(Vec2(-250.0, -400.0), Vec2(500.0, 800.0)), Vec2(0.0, 0.0));
  }

  /** The window's corner lies left of a default-placed 500x800 board in a 700x800 window. */
  lemma MousePositionAtWindowCorner(entity: EntityId, inBounds: (Bounds2, Vec2) -> bool)
    requires RectangleTest(inBounds)
    ensures MousePosition(Board(Bounds2(Vec2(-250.0, -400.0), Vec2(500.0, 800.0)), entity),
                          Window(700.0, 800.0), Vec2(0.0, 0.0), inBounds)
            == None
  {
    assert !ClosedContains(Bounds2(Vec2(-250.0, -400.0), Vec2(500.0, 800.0)), Vec2(-350.0, -400.0));
  }
}
