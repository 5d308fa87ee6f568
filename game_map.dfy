/** The map view (frontend/src/components/GameMap.jsx): how a key press
    moves and turns the player, which grass tiles carry a decoration, and
    the size the view falls back to. */
module GameMap {
  import opened Common
  import opened Levels
  import opened GameStore

  /** A unit move and the direction the player then faces. */
  datatype Step = Step(dx: int, dy: int, dir: Direction)

  /** The unit vector of each facing, with `y` growing downwards. */
  function Delta(d: Direction): (r: (int, int))
    ensures Abs(r.0) + Abs(r.1) == 1
  {
    match d
    case Up => (0, -1)
    case Down => (0, 1)
    case Left => (-1, 0)
    case Right => (1, 0)
  }

  /** The key bindings of `handleKeyDown`: w/W/ArrowUp, s/S/ArrowDown,
      a/A/ArrowLeft, d/D/ArrowRight; any other key is ignored. */
  function KeyToStep(key: string): (r: Option<Step>)
    ensures r == Some(Step(0, -1, Up)) <==> key in {"w", "W", "ArrowUp"}
    ensures r == Some(Step(0, 1, Down)) <==> key in {"s", "S", "ArrowDown"}
    ensures r == Some(Step(-1, 0, Left)) <==> key in {"a", "A", "ArrowLeft"}
    ensures r == Some(Step(1, 0, Right)) <==> key in {"d", "D", "ArrowRight"}
    ensures r.Some? ==> (r.value.dx, r.value.dy) == Delta(r.value.dir)
  {
    if key in {"w", "W", "ArrowUp"} then Some(Step(0, -1, Up))
    else if key in {"s", "S", "ArrowDown"} then Some(Step(0, 1, Down))
    else if key in {"a", "A", "ArrowLeft"} then Some(Step(-1, 0, Left))
    else if key in {"d", "D", "ArrowRight"} then Some(Step(1, 0, Right))
    else None
  }

  /** Every one of the four facings is reachable from the keyboard. */
  lemma EveryDirectionBound(d: Direction)
    ensures exists key :: KeyToStep(key).Some? && KeyToStep(key).value.dir == d
  {
    match d
    case Up => assert KeyToStep("w").value.dir == Up;
    case Down => assert KeyToStep("s").value.dir == Down;
    case Left => assert KeyToStep("a").value.dir == Left;
    case Right => assert KeyToStep("d").value.dir == Right;
  }

  /** `handleKeyDown(e)`; `grid` is the map the store's `canMoveTo` reads
      (`INITIAL_MAP` of the game configuration). Nothing happens
      while a dialog, the helper or the level list is open, nor for an
      unbound key. Otherwise the player turns to the key's direction even
      when the move is blocked, and steps one tile only when the target is
      walkable. */
  method HandleKeyDown(s: Store, key: string, grid: seq<seq<int>>, showHelper: bool, showLevelSelect: bool)
    modifies s`position, s`direction
    ensures (s.activeNPC.Some? || showHelper || showLevelSelect || KeyToStep(key).None?) ==>
      s.position == old(s.position) && s.direction == old(s.direction)
    ensures !(s.activeNPC.Some? || showHelper || showLevelSelect) && KeyToStep(key).Some? ==>
      var st := KeyToStep(key).value;
      var target := Pos(old(s.position).x + st.dx, old(s.position).y + st.dy);
      && s.direction == st.dir
      && s.position == (if CanMoveTo(grid, target.x, target.y) then target else old(s.position))
    ensures s.position == old(s.position) ||
      (Abs(s.position.x - old(s.position).x) + Abs(s.position.y - old(s.position).y) == 1
       && CanMoveTo(grid, s.position.x, s.position.y))
  {
    if s.activeNPC.Some? || showHelper || showLevelSelect {
      return;
    }
    var step := KeyToStep(key);
    if step.None? {
      return;
    }
    var st := step.value;
    var newX, newY := s.position.x + st.dx, s.position.y + st.dy;
    if CanMoveTo(grid, newX, newY) {
      s.UpdatePosition(Pos(newX, newY));
    }
    s.UpdateDirection(st.dir);
  }

  datatype Deco = Flower | Grass | Stone

  /** `(x * 123 + y * 456) % 100`; both coordinates are indices, so the
      remainder of the source and Dafny's agree. */
  function Seed(x: nat, y: nat): (r: nat)
    ensures r < 100
  {
    (x * 123 + y * 456) % 100
  }

  /** The decoration a seed selects, if any. */
  function DecoOfSeed(seed: nat): (r: Option<Deco>)
    ensures r == Some(Flower) <==> seed < 5
    ensures r == Some(Grass) <==> 5 <= seed < 15
    ensures r == Some(Stone) <==> 15 <= seed && seed > 98
  {
    if seed < 5 then Some(Flower)
    else if seed < 15 then Some(Grass)
    else if seed > 98 then Some(Stone)
    else None
  }

  /** The tile exists in the grid. */
  predicate InGrid(grid: seq<seq<int>>, p: Pos)
  {
    0 <= p.y < |grid| && 0 <= p.x < |grid[p.y]|
  }

  /** The decoration of one tile: only an existing grass tile (0) can
      carry one. */
  function DecoAt(grid: seq<seq<int>>, p: Pos): (r: Option<Deco>)
    ensures r.Some? ==> InGrid(grid, p) && grid[p.y][p.x] == 0
  {
    if InGrid(grid, p) && grid[p.y][p.x] == 0 then DecoOfSeed(Seed(p.x, p.y)) else None
  }

  /** The `decorations` memo: row by row, tile by tile, every grass tile
      whose seed selects a decoration gets it. The result holds exactly
      those tiles; tiles are keyed by position rather than the source's
      `"x-y"` strings, which name positions one to one. */
  method Decorations(grid: seq<seq<int>>) returns (decos: map<Pos, Deco>)
    ensures forall p :: p in decos <==> DecoAt(grid, p).Some?
    ensures forall p :: p in decos ==> Some(decos[p]) == DecoAt(grid, p)
  {
    decos := map[];
    var y := 0;
    while y < |grid|
      invariant 0 <= y <= |grid|
      invariant forall p :: p in decos <==> (p.y < y && DecoAt(grid, p).Some?)
      invariant forall p :: p in decos ==> Some(decos[p]) == DecoAt(grid, p)
    {
      var row := grid[y];
      var x := 0;
      while x < |row|
        invariant 0 <= x <= |row|
        invariant forall p :: p in decos <==> ((p.y < y || (p.y == y && p.x < x)) && DecoAt(grid, p).Some?)
        invariant forall p :: p in decos ==> Some(decos[p]) == DecoAt(grid, p)
      {
        if row[x] == 0 {
          var d := DecoOfSeed(Seed(x, y));
          if d.Some? {
            decos := decos[Pos(x, y) := d.value];
          }
        }
        x := x + 1;
      }
      y := y + 1;
    }
  }

  /** Walls and other non-grass tiles are never decorated, and no tile
      outside the grid is. */
  lemma DecorationsOnGrass(grid: seq<seq<int>>, decos: map<Pos, Deco>, p: Pos)
    requires forall q :: q in decos <==> DecoAt(grid, q).Some?
    requires p in decos
    ensures InGrid(grid, p) && grid[p.y][p.x] == 0
  {
    assert DecoAt(grid, p).Some?;
  }

  /** The view's size: `currentLevel?.map || []`, then the first row's
      length and the row count, each falling back to the default when
      zero. It agrees with `getMapSize` of the level configuration. */
  function ViewSize(level: Option<Level>): (r: Size)
    ensures r == MapSize(level)
  {
    var currentMap := if level.Some? && level.value.grid.Some? then level.value.grid.value else [];
    var width := if |currentMap| > 0 && |currentMap[0]| != 0 then |currentMap[0]| else MapWidth;
    var height := if |currentMap| != 0 then |currentMap| else MapHeight;
    Size(width, height)
  }
}
