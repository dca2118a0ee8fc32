/**
 * The board builder of the board plugin (board_plugin/src/lib.rs): it picks
 * the board's origin from the placement options, lays out the background,
 * the tank, a row of covers and a grid of aliens as children of the board's
 * root entity, and stores the board's bounds as the board resource.
 *
 * Child translations are relative to the board's root entity, whose own
 * translation is the origin.
 */
module BoardPlugin {
  import opened Wrappers
  import opened Vectors
  import opened Bounds
  import opened BoardOptions
  import opened BoardResource

  /** The board's extent, fixed in the source. */
  const BoardSize := Vec2(500 as real, 800 as real)

  /**
   * What a child is; this stands for its `Name` component ("Background",
   * "Tank", "Cover {i}", "Alien ({col}, {row})") and selects its material.
   */
  datatype ElementKind = Background | Tank | Cover(index: int) | Alien(col: int, row: int)

  /** One sprite placed under the board's root: kind, translation and custom size. */
  datatype Element = Element(kind: ElementKind, translation: Vec3, size: Vec2)

  /** The arguments of `spawn_covers`: how many, sprite size, x step and the row's y. */
  datatype CoverRow = CoverRow(count: int, width: real, height: real, startX: real, y: real)

  /** The arguments of `spawn_aliens`: grid shape, sprite size and the grid's start point. */
  datatype AlienGrid = AlienGrid(rows: int, perRow: int, width: real, height: real, startX: real, startY: real)

  /** What `create_board` leaves behind: the root's translation, the board resource and the children. */
  datatype BoardLayout = BoardLayout(origin: Vec3, board: Board, children: seq<Element>)

  /** The number of iterations of a loop over `1..n+1`. */
  function Count(n: int): nat {
    if n < 0 then 0 else n
  }

  /**
   * The board's origin chosen by the placement option: the centred board has
   * its centre at the offset, the custom one has its corner at the position.
   */
  function Origin(position: BoardPosition, size: Vec2): (o: Vec3)
    ensures position.Centered? ==>
      && o.x + size.x / 2.0 == position.offset.x
      && o.y + size.y / 2.0 == position.offset.y
      && o.z == position.offset.z
    ensures position.Custom? ==> o == position.p
  {
    match position
    case Centered(offset) =>
      Vec3(-(size.x / 2.0) + offset.x, -(size.y / 2.0) + offset.y, 0.0 + offset.z)
    case Custom(p) => p
  }

  function BackgroundElement(size: Vec2): Element {
    Element(Background, Vec3(size.x / 2.0, size.y / 2.0, 0.0), size)
  }

  function TankElement(width: real, height: real, x: real, y: real): Element {
    Element(Tank, Vec3(x, y, 0.0), Vec2(width, height))
  }

  function CoverElement(c: CoverRow, i: int): Element {
    Element(Cover(i), Vec3(c.startX * (i as real), c.y, 0.0), Vec2(c.width, c.height))
  }

  function AlienElement(g: AlienGrid, col: int, row: int): Element {
    Element(Alien(col, row),
            Vec3(g.startX + (col * 34) as real, g.startY + (row * 30) as real, 0.0),
            Vec2(g.width, g.height))
  }

  /** The covers spawned by `spawn_covers`: cover `i` for `i` in `1..=count`, in that order. */
  function Covers(c: CoverRow): (r: seq<Element>)
    decreases c.count
    ensures |r| == Count(c.count)
  {
    if c.count <= 0 then [] else Covers(c.(count := c.count - 1)) + [CoverElement(c, c.count)]
  }

  /** Element `k` of the covers is cover `k + 1`. */
  lemma {:induction false} CoverAt(c: CoverRow, k: int)
    requires 0 <= k < Count(c.count)
    ensures Covers(c)[k] == CoverElement(c, k + 1)
    decreases c.count
  {
    if k < c.count - 1 {
      CoverAt(c.(count := c.count - 1), k);
    }
  }

  /** One row of aliens, as the inner loop of `spawn_aliens` spawns it: columns `1..=perRow`. */
  function AlienRow(g: AlienGrid, row: int): (r: seq<Element>)
    decreases g.perRow
    ensures |r| == Count(g.perRow)
  {
    if g.perRow <= 0 then [] else AlienRow(g.(perRow := g.perRow - 1), row) + [AlienElement(g, g.perRow, row)]
  }

  /** Element `k` of a row is the alien in column `k + 1`. */
  lemma {:induction false} AlienRowAt(g: AlienGrid, row: int, k: int)
    requires 0 <= k < Count(g.perRow)
    ensures AlienRow(g, row)[k] == AlienElement(g, k + 1, row)
    decreases g.perRow
  {
    if k < g.perRow - 1 {
      AlienRowAt(g.(perRow := g.perRow - 1), row, k);
    }
  }

  /** The aliens spawned by `spawn_aliens`: rows `1..=rows`, each a full row. */
  function Aliens(g: AlienGrid): seq<Element>
    decreases g.rows
  {
    if g.rows <= 0 then [] else Aliens(g.(rows := g.rows - 1)) + AlienRow(g, g.rows)
  }

  /** The grid holds `rows * perRow` aliens. */
  lemma {:induction false} AliensLength(g: AlienGrid)
    ensures |Aliens(g)| == Count(g.rows) * Count(g.perRow)
    decreases g.rows
  {
    if g.rows > 0 {
      AliensLength(g.(rows := g.rows - 1));
    }
  }

  /** Alien `(col, row)` sits at index `(row-1)*perRow + (col-1)` of the alien sequence. */
  lemma {:induction false} AlienAt(g: AlienGrid, col: int, row: int)
    requires 1 <= row <= g.rows && 1 <= col <= g.perRow
    ensures (row - 1) * g.perRow + (col - 1) < |Aliens(g)|
    ensures Aliens(g)[(row - 1) * g.perRow + (col - 1)] == AlienElement(g, col, row)
    decreases g.rows
  {
    var g' := g.(rows := g.rows - 1);
    var prefix := Aliens(g');
    AliensLength(g');
    assert |prefix| == (g.rows - 1) * g.perRow;
    if row == g.rows {
      AlienRowAt(g, row, col - 1);
    } else {
      AlienAt(g', col, row);
      assert AlienElement(g', col, row) == AlienElement(g, col, row);
    }
  }

  /** Row-major order on alien kinds: earlier row, or same row and earlier column. */
  predicate RowMajorBefore(a: ElementKind, b: ElementKind)
    requires a.Alien? && b.Alien?
  {
    a.row < b.row || (a.row == b.row && a.col < b.col)
  }

  /** Each element is an alien of the grid with indices in range, placed by the alien formula. */
  predicate AliensInRange(r: seq<Element>, g: AlienGrid) {
    forall k :: 0 <= k < |r| ==>
      && r[k].kind.Alien?
      && 1 <= r[k].kind.row <= g.rows && 1 <= r[k].kind.col <= g.perRow
      && r[k] == AlienElement(g, r[k].kind.col, r[k].kind.row)
  }

  /** The elements are aliens in strictly increasing row-major order. */
  predicate InRowMajorOrder(r: seq<Element>) {
    forall j, k :: 0 <= j < k < |r| ==>
      r[j].kind.Alien? && r[k].kind.Alien? && RowMajorBefore(r[j].kind, r[k].kind)
  }

  /**
   * Every element of the alien sequence is an alien with indices in range
   * at its formula position, and the sequence is in row-major order.
   */
  lemma {:induction false} AliensRowMajor(g: AlienGrid)
    ensures AliensInRange(Aliens(g), g)
    ensures InRowMajorOrder(Aliens(g))
    decreases g.rows
  {
    if g.rows > 0 {
      var g' := g.(rows := g.rows - 1);
      AliensRowMajor(g');
      var prefix := Aliens(g');
      var last := AlienRow(g, g.rows);
      var r := Aliens(g);
      assert r == prefix + last;
      forall k | 0 <= k < |r|
        ensures && r[k].kind.Alien?
                && 1 <= r[k].kind.row <= g.rows && 1 <= r[k].kind.col <= g.perRow
                && r[k] == AlienElement(g, r[k].kind.col, r[k].kind.row)
      {
        if k >= |prefix| {
          AlienRowAt(g, g.rows, k - |prefix|);
          assert r[k] == last[k - |prefix|];
        } else {
          assert r[k] == prefix[k];
          assert AlienElement(g', r[k].kind.col, r[k].kind.row) == AlienElement(g, r[k].kind.col, r[k].kind.row);
        }
      }
      forall j, k | 0 <= j < k < |r|
        ensures r[j].kind.Alien? && r[k].kind.Alien? && RowMajorBefore(r[j].kind, r[k].kind)
      {
        if k < |prefix| {
          assert r[j] == prefix[j] && r[k] == prefix[k];
        } else if j < |prefix| {
          AlienRowAt(g, g.rows, k - |prefix|);
          assert r[j] == prefix[j] && r[k] == last[k - |prefix|];
        } else {
          AlienRowAt(g, g.rows, j - |prefix|);
          AlienRowAt(g, g.rows, k - |prefix|);
          assert r[j] == last[j - |prefix|] && r[k] == last[k - |prefix|];
        }
      }
    }
  }

  /** No two aliens share a translation: the steps along both axes are positive. */
  lemma AlienTranslationsDistinct(g: AlienGrid)
    ensures forall j, k :: 0 <= j < k < |Aliens(g)| ==> Aliens(g)[j].translation != Aliens(g)[k].translation
  {
    var r := Aliens(g);
    AliensRowMajor(g);
    assert InRowMajorOrder(r) && AliensInRange(r, g);
    forall j, k | 0 <= j < k < |r|
      ensures r[j].translation != r[k].translation
    {
      var a, b := r[j].kind, r[k].kind;
      assert RowMajorBefore(a, b);
      if a.row < b.row {
        assert a.row * 30 < b.row * 30;
        assert r[j].translation.y != r[k].translation.y;
      } else {
        assert a.col * 34 < b.col * 34;
        assert r[j].translation.x != r[k].translation.x;
      }
    }
  }

  /** The cover row `create_board` asks for: 4 covers of 50x25, a quarter of the height up. */
  function BoardCovers(size: Vec2): CoverRow {
    var coversCount := 4;
    var coverWidth := 50.0;
    CoverRow(coversCount, coverWidth, 25.0, coverWidth / -2.0 + size.x / (coversCount as real), size.y / 4.0)
  }

  /** The alien grid `create_board` asks for: 5 rows of 12 aliens of 25x25, from a third of the height up. */
  function BoardAliens(size: Vec2): AlienGrid {
    var rows := 5;
    var aliensPerRow := 12;
    var alienWidth := 25.0;
    AlienGrid(rows, aliensPerRow, alienWidth, 25.0, alienWidth / -2.0 + size.x / (aliensPerRow as real), size.y / 3.0)
  }

  /** The children `create_board` spawns under the board's root, in spawn order. */
  function BoardChildren(size: Vec2): (r: seq<Element>)
    ensures |r| == 66
    ensures r[0].kind == Background && r[1].kind == Tank
  {
    AliensLength(BoardAliens(size));
    [BackgroundElement(size), TankElement(50.0, 25.0, size.x / 2.0, size.y / 5.0)]
    + Covers(BoardCovers(size))
    + Aliens(BoardAliens(size))
  }

  /** Everything `create_board` produces for the given options and root entity. */
  function Layout(options: BoardOptions, entity: EntityId): (l: BoardLayout)
    ensures l.origin == Origin(options.position, BoardSize)
    ensures l.children == BoardChildren(BoardSize)
    ensures l.board.bounds.position == XY(l.origin) && l.board.bounds.size == BoardSize
    ensures l.board.entity == entity
    ensures |l.children| == 66
  {
    var origin := Origin(options.position, BoardSize);
    BoardLayout(origin, Board(Bounds2(XY(origin), BoardSize), entity), BoardChildren(BoardSize))
  }

  /**
   * The children of any board: one background covering the board, one
   * 50x25 tank, four covers, then the 5x12 aliens; 66 in all.
   */
  lemma BoardChildrenShape(size: Vec2)
    ensures |BoardChildren(size)| == 66
    ensures BoardChildren(size)[0] == Element(Background, Vec3(size.x / 2.0, size.y / 2.0, 0.0), size)
    ensures BoardChildren(size)[1] == Element(Tank, Vec3(size.x / 2.0, size.y / 5.0, 0.0), Vec2(50.0, 25.0))
    ensures forall j :: 0 <= j < 66 ==> (BoardChildren(size)[j].kind.Background? <==> j == 0)
    ensures forall j :: 0 <= j < 66 ==> (BoardChildren(size)[j].kind.Tank? <==> j == 1)
    ensures forall j :: 0 <= j < 66 ==> (BoardChildren(size)[j].kind.Cover? <==> 2 <= j < 6)
    ensures forall j :: 0 <= j < 66 ==> (BoardChildren(size)[j].kind.Alien? <==> 6 <= j)
  {
    var r := BoardChildren(size);
    var covers := Covers(BoardCovers(size));
    var aliens := Aliens(BoardAliens(size));
    AliensRowMajor(BoardAliens(size));
    assert AliensInRange(aliens, BoardAliens(size));
    AliensLength(BoardAliens(size));
    assert |covers| == 4 && |aliens| == 60;
    forall j | 6 <= j < 66 ensures r[j].kind.Alien? {
      assert r[j] == aliens[j - 6];
    }
    forall j | 2 <= j < 6 ensures r[j].kind.Cover? {
      CoverAt(BoardCovers(size), j - 2);
      assert r[j] == covers[j - 2];
    }
  }

  /** Cover `i` (1 to 4) is child `i + 1`: 50x25, at `((-25 + w/4) * i, h/4)`. */
  lemma CoverChild(size: Vec2, i: int)
    requires 1 <= i <= 4
    ensures 1 + i < |BoardChildren(size)|
    ensures BoardChildren(size)[1 + i]
            == Element(Cover(i), Vec3((-25.0 + size.x / 4.0) * (i as real), size.y / 4.0, 0.0), Vec2(50.0, 25.0))
  {
    var c := BoardCovers(size);
    assert c.startX == -25.0 + size.x / 4.0;
    CoverAt(c, i - 1);
    assert BoardChildren(size)[1 + i] == Covers(c)[i - 1];
  }

  /**
   * Alien `(col, row)`, both counted from 1, is child `6 + (row-1)*12 + (col-1)`:
   * 25x25, at `(-12.5 + w/12 + 34*col, h/3 + 30*row)`.
   */
  lemma AlienChild(size: Vec2, col: int, row: int)
    requires 1 <= row <= 5 && 1 <= col <= 12
    ensures 6 + (row - 1) * 12 + (col - 1) < |BoardChildren(size)|
    ensures BoardChildren(size)[6 + (row - 1) * 12 + (col - 1)]
            == Element(Alien(col, row),
                       Vec3(-12.5 + size.x / 12.0 + (34 * col) as real, size.y / 3.0 + (30 * row) as real, 0.0),
                       Vec2(25.0, 25.0))
  {
    var g := BoardAliens(size);
    AlienAt(g, col, row);
    assert |Covers(BoardCovers(size))| == 4;
    assert BoardChildren(size)[6 + (row - 1) * 12 + (col - 1)] == Aliens(g)[(row - 1) * 12 + (col - 1)];
  }

  /**
   * The board resource records the origin's x and y as its corner and the
   * fixed extent as its size; the root entity sits at the origin.
   */
  lemma LayoutBounds(options: BoardOptions, entity: EntityId)
    ensures Layout(options, entity).origin == Origin(options.position, BoardSize)
    ensures Layout(options, entity).board.bounds.position.x == Layout(options, entity).origin.x
    ensures Layout(options, entity).board.bounds.position.y == Layout(options, entity).origin.y
    ensures Layout(options, entity).board.bounds.size == BoardSize
    ensures Layout(options, entity).board.entity == entity
  {
  }

  /**
   * With the default options the board is centred on the world origin: its
   * corner is at (-250, -400) and its centre at (0, 0).
   */
  lemma DefaultOptionsLayout(entity: EntityId)
    ensures Layout(DefaultOptions(), entity).origin == Vec3(-250.0, -400.0, 0.0)
    ensures BoardSize == Vec2(500.0, 800.0)
    ensures Layout(DefaultOptions(), entity).board.bounds == Bounds2(Vec2(-250.0, -400.0), Vec2(500.0, 800.0))
  {
  }

  /** The children spawned so far under one parent entity (the engine's `ChildBuilder`). */
  class ChildBuilder {
    var children: seq<Element>

    constructor ()
      ensures children == []
    {
      children := [];
    }

    /** Spawns one child after those already spawned. */
    method Spawn(e: Element)
      modifies this
      ensures children == old(children) + [e]
    {
      children := children + [e];
    }
  }

  /** The singleton board resource slot of the engine's world. */
  class Resources {
    var board: Option<Board>

    constructor ()
      ensures board == None
    {
      board := None;
    }

    /** `insert_resource`: the new board replaces any board already there. */
    method InsertBoard(b: Board)
      modifies this
      ensures board == Some(b)
    {
      board := Some(b);
    }
  }

  /** `spawn_player`: spawns the tank. */
  method SpawnPlayer(parent: ChildBuilder, width: real, height: real, x: real, y: real)
    modifies parent
    ensures parent.children == old(parent.children) + [TankElement(width, height, x, y)]
  {
    parent.Spawn(Element(Tank, Vec3(x, y, 0.0), Vec2(width, height)));
  }

  /** `spawn_covers`: spawns cover `i` for `i` in `1..count+1`. */
  method SpawnCovers(parent: ChildBuilder, count: int, width: real, height: real, startX: real, startY: real)
    modifies parent
    ensures parent.children == old(parent.children) + Covers(CoverRow(count, width, height, startX, startY))
  {
    var i := 1;
    while i < count + 1
      invariant 1 <= i && (count < 1 ==> i == 1) && (count >= 1 ==> i <= count + 1)
      invariant parent.children == old(parent.children) + Covers(CoverRow(i - 1, width, height, startX, startY))
    {
      var cover := Element(Cover(i), Vec3(startX * (i as real), startY, 0.0), Vec2(width, height));
      assert cover == CoverElement(CoverRow(i, width, height, startX, startY), i);
      parent.Spawn(cover);
      i := i + 1;
    }
  }

  /** `spawn_aliens`: spawns alien `(i, row)` for `row` in `1..rows+1`, then `i` in `1..countPerRow+1`. */
  method SpawnAliens(parent: ChildBuilder, rows: int, countPerRow: int,
                     width: real, height: real, startX: real, startY: real)
    modifies parent
    ensures parent.children
            == old(parent.children) + Aliens(AlienGrid(rows, countPerRow, width, height, startX, startY))
  {
    ghost var grid := AlienGrid(rows, countPerRow, width, height, startX, startY);
    var row := 1;
    while row < rows + 1
      invariant 1 <= row && (rows < 1 ==> row == 1) && (rows >= 1 ==> row <= rows + 1)
      invariant parent.children == old(parent.children) + Aliens(grid.(rows := row - 1))
    {
      ghost var before := parent.children;
      var i := 1;
      while i < countPerRow + 1
        invariant 1 <= i && (countPerRow < 1 ==> i == 1) && (countPerRow >= 1 ==> i <= countPerRow + 1)
        invariant parent.children == before + AlienRow(grid.(rows := row, perRow := i - 1), row)
      {
        var alien := Element(Alien(i, row),
                             Vec3(startX + (i * 34) as real, startY + (row * 30) as real, 0.0),
                             Vec2(width, height));
        assert alien == AlienElement(grid.(rows := row, perRow := i), i, row);
        parent.Spawn(alien);
        i := i + 1;
      }
      assert grid.(rows := row, perRow := countPerRow) == grid.(rows := row);
      row := row + 1;
    }
  }

  /**
   * The closure `create_board` passes to `with_children`: the background,
   * the tank, the covers and the aliens, laid out on a board of the given size.
   */
  method SpawnBoardChildren(parent: ChildBuilder, boardSize: Vec2)
    modifies parent
    ensures parent.children == old(parent.children) + BoardChildren(boardSize)
  {
    parent.Spawn(Element(Background, Vec3(boardSize.x / 2.0, boardSize.y / 2.0, 0.0), boardSize));
    SpawnPlayer(parent, 50.0, 25.0, boardSize.x / 2.0, boardSize.y / 5.0);

    var coversCount := 4;
    var coverWidth := 50.0;
    var startX := coverWidth / -2.0 + boardSize.x / (coversCount as real);
    SpawnCovers(parent, coversCount, coverWidth, 25.0, startX, boardSize.y / 4.0);

    var rows := 5;
    var aliensPerRow := 12;
    var alienWidth := 25.0;
    startX := alienWidth / -2.0 + boardSize.x / (aliensPerRow as real);
    var startY := boardSize.y / 3.0;
    SpawnAliens(parent, rows, aliensPerRow, alienWidth, 25.0, startX, startY);
  }

  /**
   * `create_board`: picks the origin, spawns the board's children and
   * inserts the board resource. `entity` is the id the engine gives the
   * board's root entity.
   */
  method CreateBoard(resources: Resources, options: BoardOptions, entity: EntityId)
    returns (origin: Vec3, children: seq<Element>)
    modifies resources
    ensures origin == Layout(options, entity).origin
    ensures children == Layout(options, entity).children
    ensures resources.board == Some(Layout(options, entity).board)
  {
    var boardSize := Vec2(500 as real, 800 as real);
    var boardPosition := Origin(options.position, boardSize);
    var parent := new ChildBuilder();
    SpawnBoardChildren(parent, boardSize);
    origin := boardPosition;
    children := parent.children;
    resources.InsertBoard(Board(Bounds2(XY(boardPosition), boardSize), entity));
  }
}
