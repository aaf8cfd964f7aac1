/**
 * The room grower of `src/map.rs`: a Cube seed room at (5,5,5), a growth loop that proposes
 * rooms at frontier (`Connection`) cells and commits only the valid ones, and a Cube end room.
 *
 * Both grids of the source are fixed 10x10x10 arrays; coordinates are unbounded integers here
 * and every array access is guarded by an explicit bounds test.
 */
module RoomGrowth {
  import opened Wrappers

  /** Edge length of both grids (`[[[_; 10]; 10]; 10]`). */
  const Size: int := 10

  datatype RoomType = Cube | R1 | R2 | R3 | R4

  /** Per-cell state of `possible_places`; a cell holds `None` or `Some` of one of these. */
  datatype State = Empty | Connection | Filled

  /**
   * The colour constants the source gives rooms, kept as an opaque tag:
   * Green (0.2, 1, 0.2, 1), Pink (1, 0.3, 0.8, 1), Blue (0, 0.2, 1, 1), Yellow (1, 1, 0.1, 1).
   */
  datatype Colour = Green | Pink | Blue | Yellow

  datatype Cell = Cell(x: int, y: int, z: int)

  datatype Room = Room(roomType: RoomType, position: Cell, colour: Colour)

  /** The seed room and the placeholder room the source writes into `cube` for every committed cell. */
  const SeedRoom := Room(Cube, Cell(5, 5, 5), Green)
  const DummyRoom := Room(Cube, Cell(1, 1, 1), Green)

  /** The `match room_index` of the growth loop. */
  function TypeOf(index: nat): RoomType {
    match index
    case 0 => Cube
    case 1 => R1
    case 2 => R2
    case 3 => R3
    case _ => R4
  }

  function InteriorColour(t: RoomType): Colour {
    if t == Cube then Pink else Blue
  }

  /** Lexicographic order on cells, the order of the nested `i, j, k` loops. */
  predicate Before(a: Cell, b: Cell) {
    a.x < b.x || (a.x == b.x && (a.y < b.y || (a.y == b.y && a.z < b.z)))
  }

  predicate Increasing(s: seq<Cell>) {
    forall i, j :: 0 <= i < j < |s| ==> Before(s[i], s[j])
  }

  predicate InGrid(c: Cell) {
    0 <= c.x < Size && 0 <= c.y < Size && 0 <= c.z < Size
  }

  /** The probe filter's bounds test `0 < c < size` on every coordinate. */
  predicate Inner(c: Cell) {
    0 < c.x < Size && 0 < c.y < Size && 0 < c.z < Size
  }

  // ---------------------------------------------------------------------------------------
  // Catalog: footprints (`get_occupied_cells`) and probe tables (`calculate_connections`)
  // ---------------------------------------------------------------------------------------

  /** `get_occupied_cells`: the anchor, then for the extended types its second cell. */
  function GetOccupiedCells(room: Room): seq<Cell> {
    var p := room.position;
    match room.roomType
    case Cube => [p]
    case R1 => [p, Cell(p.x, p.y, p.z + 1)]
    case R2 => [p, Cell(p.x - 1, p.y, p.z)]
    case R3 => [p, Cell(p.x, p.y, p.z - 1)]
    case R4 => [p, Cell(p.x + 1, p.y, p.z)]
  }

  /** The per-type list of candidate frontier cells of `calculate_connections`, entry for entry. */
  function ProbeTable(room: Room): seq<Cell> {
    var p := room.position;
    var (x, y, z) := (p.x, p.y, p.z);
    match room.roomType
    case Cube =>
      [Cell(x + 1, y, z), Cell(x - 1, y, z), Cell(x, y + 1, z),
       Cell(x, y - 1, z), Cell(x, y, z + 1), Cell(x, y, z - 1)]
    case R1 =>
      [Cell(x + 1, y, z), Cell(x - 1, y, z), Cell(x, y + 1, z), Cell(x, y - 1, z),
       Cell(x + 1, y, z + 1), Cell(x - 1, y, z + 1), Cell(x, y + 1, z + 1), Cell(x, y - 1, z + 1),
       Cell(x, y, z - 1), Cell(x, y, z + 2)]
    case R2 =>
      [Cell(x, y + 1, z), Cell(x, y - 1, z), Cell(x, y, z + 1), Cell(x, y, z - 1),
       Cell(x - 1, y + 1, z), Cell(x - 1, y - 1, z), Cell(x - 1, y, z + 1), Cell(x - 1, y, z + 1),
       Cell(x + 1, y, z), Cell(x - 2, y, z)]
    case R3 =>
      [Cell(x + 1, y, z), Cell(x - 1, y, z), Cell(x, y + 1, z), Cell(x, y - 1, z),
       Cell(x + 1, y, z - 1), Cell(x - 1, y, z - 1), Cell(x, y + 1, z - 1), Cell(x, y - 1, z - 1),
       Cell(x, y, z + 1), Cell(x, y, z - 2)]
    case R4 =>
      [Cell(x, y + 1, z), Cell(x, y - 1, z), Cell(x, y, z + 1), Cell(x, y, z - 1),
       Cell(x + 1, y + 1, z), Cell(x + 1, y - 1, z), Cell(x + 1, y, z + 1), Cell(x + 1, y, z + 1),
       Cell(x - 1, y, z), Cell(x + 2, y, z)]
  }

  /** Unit step of the second footprint cell of an extended room type. */
  function Extension(t: RoomType): Cell
    requires t != Cube
  {
    match t
    case R1 => Cell(0, 0, 1)
    case R2 => Cell(-1, 0, 0)
    case R3 => Cell(0, 0, -1)
    case R4 => Cell(1, 0, 0)
  }

  predicate FaceNeighbours(a: Cell, b: Cell) {
    var d := Abs(a.x - b.x) + Abs(a.y - b.y) + Abs(a.z - b.z);
    d == 1
  }

  function Abs(n: int): nat {
    if n < 0 then -n else n
  }

  /** The footprint always starts at the anchor: one cell for Cube, a domino along the type's axis otherwise. */
  lemma FootprintShape(room: Room)
    ensures var cells := GetOccupiedCells(room);
      && cells[0] == room.position
      && (room.roomType == Cube ==> |cells| == 1)
      && (room.roomType != Cube ==>
            var e := Extension(room.roomType);
            |cells| == 2 && cells[1] == Cell(room.position.x + e.x, room.position.y + e.y, room.position.z + e.z)
            && FaceNeighbours(cells[0], cells[1]))
  {
  }

  /** Every probe is a face neighbour of a footprint cell and never a footprint cell itself. */
  lemma ProbesBorderFootprint(room: Room)
    ensures forall q :: q in ProbeTable(room) ==> q !in GetOccupiedCells(room)
    ensures forall q :: q in ProbeTable(room) ==>
      exists f :: f in GetOccupiedCells(room) && FaceNeighbours(q, f)
  {
    var p, cells := room.position, GetOccupiedCells(room);
    forall q | q in ProbeTable(room)
      ensures exists f :: f in cells && FaceNeighbours(q, f)
    {
      if FaceNeighbours(q, p) {
        assert p in cells;
      } else {
        assert cells[1] in cells && FaceNeighbours(q, cells[1]);
      }
    }
  }

  /**
   * As written, the R2 and R4 tables list the probe beside the second cell towards +z twice and never
   * probe the cell beside it towards -z, although that cell is a face neighbour of the footprint.
   */
  lemma ExtendedXTablesRepeatAProbe(p: Cell, t: RoomType)
    requires t == R2 || t == R4
    ensures var room := Room(t, p, Blue);
      var probes := ProbeTable(room);
      var second := GetOccupiedCells(room)[1];
      var missed := Cell(second.x, second.y, second.z - 1);
      && probes[6] == probes[7]
      && FaceNeighbours(missed, second) && missed !in GetOccupiedCells(room)
      && missed !in probes
  {
  }

  // ---------------------------------------------------------------------------------------
  // The two grids
  // ---------------------------------------------------------------------------------------

  /** `cube`: which cells hold a room. */
  type CubeGrid = array3<Option<Room>>

  /** `possible_places`: each cell's growth state. */
  type PlaceGrid = array3<Option<State>>

  predicate IsGrid<T>(a: array3<T>) {
    a.Length0 == Size && a.Length1 == Size && a.Length2 == Size
  }

  function At<T>(a: array3<T>, c: Cell): T
    requires IsGrid(a) && InGrid(c)
    reads a
  {
    a[c.x, c.y, c.z]
  }

  /** The filter a probe must pass before it is marked: not a cell of the room, and `0 < c < size`. */
  predicate Passes(q: Cell, occupied: seq<Cell>) {
    q !in occupied && Inner(q)
  }

  /** Some probe passes the filter; only then are the room's own cells written. */
  predicate AnyPasses(probes: seq<Cell>, occupied: seq<Cell>) {
    exists i :: 0 <= i < |probes| && Passes(probes[i], occupied)
  }

  /**
   * State of cell `c` of `possible_places` after the probes `probes` were run for a room whose cells
   * are `occupied`: the room's cells become Filled once a probe has passed, a passing probe becomes
   * Connection (whatever the cell held before), every other cell keeps `before`.
   */
  function PlaceAfter(before: Option<State>, c: Cell, probes: seq<Cell>, occupied: seq<Cell>): Option<State> {
    if c in occupied && AnyPasses(probes, occupied) then Some(Filled)
    else if c in probes && Passes(c, occupied) then Some(Connection)
    else before
  }

  /** State of cell `c` of `cube` after the same probes: the room's cells receive the placeholder room. */
  function CubeAfter(before: Option<Room>, c: Cell, probes: seq<Cell>, occupied: seq<Cell>): Option<Room> {
    if c in occupied && AnyPasses(probes, occupied) then Some(DummyRoom) else before
  }

  /** No probe coordinate is negative, so the source's `usize` subtractions do not underflow. */
  predicate NoUnderflow(probes: seq<Cell>) {
    forall i :: 0 <= i < |probes| ==> probes[i].x >= 0 && probes[i].y >= 0 && probes[i].z >= 0
  }

  /**
   * `calculate_connections`: for each probe of the room's table that passes the filter, mark it
   * Connection and then write every occupied cell (placeholder room in `cube`, Filled in
   * `possible_places`).
   */
  method CalculateConnections(room: Room, cube: CubeGrid, places: PlaceGrid, occupied: seq<Cell>, ghost rooms: seq<Room>)
    requires IsGrid(cube) && IsGrid(places)
    requires forall i :: 0 <= i < |occupied| ==> InGrid(occupied[i])
    requires NoUnderflow(ProbeTable(room))
    requires Committed(cube, rooms)
    modifies cube, places
    ensures Committed(cube, rooms)
    ensures forall c :: InGrid(c) ==>
      At(places, c) == PlaceAfter(old(At(places, c)), c, ProbeTable(room), occupied)
    ensures forall c :: InGrid(c) ==>
      At(cube, c) == CubeAfter(old(At(cube, c)), c, ProbeTable(room), occupied)
  {
    var probes := ProbeTable(room);
    MarkProbes(probes, cube, places, occupied, rooms);
  }

  /** The probe loop of `calculate_connections`, over an already computed probe list. */
  method MarkProbes(probes: seq<Cell>, cube: CubeGrid, places: PlaceGrid, occupied: seq<Cell>, ghost rooms: seq<Room>)
    requires IsGrid(cube) && IsGrid(places)
    requires forall i :: 0 <= i < |occupied| ==> InGrid(occupied[i])
    requires NoUnderflow(probes)
    requires Committed(cube, rooms)
    modifies cube, places
    ensures Committed(cube, rooms)
    ensures forall c :: InGrid(c) ==>
      At(places, c) == PlaceAfter(old(At(places, c)), c, probes, occupied)
    ensures forall c :: InGrid(c) ==>
      At(cube, c) == CubeAfter(old(At(cube, c)), c, probes, occupied)
  {
    for i := 0 to |probes|
      invariant forall c :: InGrid(c) ==>
        At(places, c) == PlaceAfter(old(At(places, c)), c, probes[..i], occupied)
      invariant forall c :: InGrid(c) ==>
        At(cube, c) == CubeAfter(old(At(cube, c)), c, probes[..i], occupied)
      invariant Committed(cube, rooms)
    {
      var q := probes[i];
      assert probes[..i + 1] == probes[..i] + [q];
      if q !in occupied && q.x > 0 && q.y > 0 && q.z > 0 && q.x < Size && q.y < Size && q.z < Size {
        ghost var mid := probes[..i];
        assert Passes(q, occupied) && q == probes[..i + 1][i];
        assert AnyPasses(probes[..i + 1], occupied);
        places[q.x, q.y, q.z] := Some(Connection);
        FillOccupied(cube, places, occupied, rooms);
        forall c | InGrid(c)
          ensures At(places, c) == PlaceAfter(old(At(places, c)), c, probes[..i + 1], occupied)
          ensures At(cube, c) == CubeAfter(old(At(cube, c)), c, probes[..i + 1], occupied)
        {
          assert c in probes[..i + 1] <==> c in mid || c == q;
        }
      }
    }
    assert probes[..|probes|] == probes;
  }

  /** The inner loop of the probe loop: every occupied cell gets the placeholder room and Filled. */
  method FillOccupied(cube: CubeGrid, places: PlaceGrid, occupied: seq<Cell>, ghost rooms: seq<Room>)
    requires IsGrid(cube) && IsGrid(places)
    requires forall i :: 0 <= i < |occupied| ==> InGrid(occupied[i])
    requires Committed(cube, rooms)
    modifies cube, places
    ensures Committed(cube, rooms)
    ensures forall c :: InGrid(c) ==>
      At(places, c) == if c in occupied then Some(Filled) else old(At(places, c))
    ensures forall c :: InGrid(c) ==>
      At(cube, c) == if c in occupied then Some(DummyRoom) else old(At(cube, c))
  {
    for j := 0 to |occupied|
      invariant forall c :: InGrid(c) ==>
        At(places, c) == if c in occupied[..j] then Some(Filled) else old(At(places, c))
      invariant forall c :: InGrid(c) ==>
        At(cube, c) == if c in occupied[..j] then Some(DummyRoom) else old(At(cube, c))
    {
      var o := occupied[j];
      assert occupied[..j + 1] == occupied[..j] + [o];
      cube[o.x, o.y, o.z] := Some(DummyRoom);
      places[o.x, o.y, o.z] := Some(Filled);
    }
    assert occupied[..|occupied|] == occupied;
    forall i, c | 0 <= i < |rooms| && c in GetOccupiedCells(rooms[i])
      ensures Inner(c) && At(cube, c).Some?
    {
      assert old(Inner(c) && At(cube, c).Some?);
    }
  }

  // ---------------------------------------------------------------------------------------
  // The frontier: `get_possible_connections`
  // ---------------------------------------------------------------------------------------

  predicate IsConnection(places: PlaceGrid, c: Cell)
    requires IsGrid(places)
    reads places
  {
    InGrid(c) && At(places, c) == Some(Connection)
  }

  /** The Connection cells of row (x, y) from column z on. */
  ghost function FrontierZ(places: PlaceGrid, x: int, y: int, z: int): seq<Cell>
    requires IsGrid(places) && 0 <= x < Size && 0 <= y < Size && 0 <= z <= Size
    reads places
    decreases Size - z
  {
    if z == Size then []
    else (if At(places, Cell(x, y, z)) == Some(Connection) then [Cell(x, y, z)] else [])
         + FrontierZ(places, x, y, z + 1)
  }

  /** The Connection cells of plane x from row y on. */
  ghost function FrontierY(places: PlaceGrid, x: int, y: int): seq<Cell>
    requires IsGrid(places) && 0 <= x < Size && 0 <= y <= Size
    reads places
    decreases Size - y
  {
    if y == Size then [] else FrontierZ(places, x, y, 0) + FrontierY(places, x, y + 1)
  }

  /** The Connection cells from plane x on. */
  ghost function FrontierX(places: PlaceGrid, x: int): seq<Cell>
    requires IsGrid(places) && 0 <= x <= Size
    reads places
    decreases Size - x
  {
    if x == Size then [] else FrontierY(places, x, 0) + FrontierX(places, x + 1)
  }

  /** All Connection cells of the grid, each once, in increasing (i, j, k) order. */
  ghost function Frontier(places: PlaceGrid): (r: seq<Cell>)
    requires IsGrid(places)
    reads places
    ensures forall c :: c in r <==> IsConnection(places, c)
    ensures Increasing(r)
  {
    FrontierXSpec(places, 0);
    FrontierX(places, 0)
  }

  lemma {:induction false} FrontierZSpec(places: PlaceGrid, x: int, y: int, z: int)
    requires IsGrid(places) && 0 <= x < Size && 0 <= y < Size && 0 <= z <= Size
    ensures var r := FrontierZ(places, x, y, z);
      && (forall c :: c in r <==> IsConnection(places, c) && c.x == x && c.y == y && c.z >= z)
      && Increasing(r)
    decreases Size - z
  {
    if z < Size {
      var rest := FrontierZ(places, x, y, z + 1);
      FrontierZSpec(places, x, y, z + 1);
      var c := Cell(x, y, z);
      if At(places, c) == Some(Connection) {
        assert FrontierZ(places, x, y, z) == [c] + rest;
        assert forall d :: d in rest ==> d.x == x && d.y == y && d.z > z;
        IncreasingConcat([c], rest);
      } else {
        assert FrontierZ(places, x, y, z) == rest;
      }
      forall d | IsConnection(places, d) && d.x == x && d.y == y && d.z == z
        ensures d in FrontierZ(places, x, y, z)
      {
        assert d == c;
      }
    }
  }

  lemma {:induction false} FrontierYSpec(places: PlaceGrid, x: int, y: int)
    requires IsGrid(places) && 0 <= x < Size && 0 <= y <= Size
    ensures var r := FrontierY(places, x, y);
      && (forall c :: c in r <==> IsConnection(places, c) && c.x == x && c.y >= y)
      && Increasing(r)
    decreases Size - y
  {
    if y < Size {
      var row, rest := FrontierZ(places, x, y, 0), FrontierY(places, x, y + 1);
      FrontierZSpec(places, x, y, 0);
      FrontierYSpec(places, x, y + 1);
      assert forall u, v :: u in row && v in rest ==> u.x == v.x && u.y < v.y;
      IncreasingConcat(row, rest);
    }
  }

  lemma {:induction false} FrontierXSpec(places: PlaceGrid, x: int)
    requires IsGrid(places) && 0 <= x <= Size
    ensures var r := FrontierX(places, x);
      && (forall c :: c in r <==> IsConnection(places, c) && c.x >= x)
      && Increasing(r)
    decreases Size - x
  {
    if x < Size {
      var plane, rest := FrontierY(places, x, 0), FrontierX(places, x + 1);
      FrontierYSpec(places, x, 0);
      FrontierXSpec(places, x + 1);
      assert forall u, v :: u in plane && v in rest ==> u.x < v.x;
      IncreasingConcat(plane, rest);
    }
  }

  lemma IncreasingConcat(a: seq<Cell>, b: seq<Cell>)
    requires Increasing(a) && Increasing(b)
    requires forall u, v :: u in a && v in b ==> Before(u, v)
    ensures Increasing(a + b)
  {
    forall i, j | 0 <= i < j < |a + b|
      ensures Before((a + b)[i], (a + b)[j])
    {
      if j < |a| {
        assert (a + b)[i] == a[i] && (a + b)[j] == a[j];
      } else if i < |a| {
        assert (a + b)[i] in a && (a + b)[j] in b;
      } else {
        assert (a + b)[i] == b[i - |a|] && (a + b)[j] == b[j - |a|];
      }
    }
  }

  /** Strict increase means every cell occurs once. */
  lemma IncreasingDistinct(s: seq<Cell>)
    requires Increasing(s)
    ensures forall i, j :: 0 <= i < j < |s| ==> s[i] != s[j]
  {
  }

  /** `get_possible_connections`: the triple nested scan collecting every Connection cell. */
  method GetPossibleConnections(places: PlaceGrid) returns (r: seq<Cell>)
    requires IsGrid(places)
    ensures r == Frontier(places)
    ensures forall c :: c in r <==> InGrid(c) && At(places, c) == Some(Connection)
    ensures forall i, j :: 0 <= i < j < |r| ==> Before(r[i], r[j])
    ensures forall i, j :: 0 <= i < j < |r| ==> r[i] != r[j]
  {
    r := [];
    for i := 0 to places.Length0
      invariant r + FrontierX(places, i) == FrontierX(places, 0)
    {
      ghost var before := r;
      r := ScanPlane(places, i, r);
      ConcatAssoc(before, FrontierY(places, i, 0), FrontierX(places, i + 1));
    }
    assert r == FrontierX(places, 0);
    FrontierXSpec(places, 0);
    IncreasingDistinct(r);
  }

  /** The middle `j` loop of the scan: push the Connection cells of plane `i` onto `r`. */
  method ScanPlane(places: PlaceGrid, i: int, r0: seq<Cell>) returns (r: seq<Cell>)
    requires IsGrid(places) && 0 <= i < Size
    ensures r == r0 + FrontierY(places, i, 0)
  {
    r := r0;
    for j := 0 to places.Length1
      invariant r + FrontierY(places, i, j) == r0 + FrontierY(places, i, 0)
    {
      ghost var before := r;
      r := ScanRow(places, i, j, r);
      ConcatAssoc(before, FrontierZ(places, i, j, 0), FrontierY(places, i, j + 1));
    }
  }

  /** The innermost `k` loop of the scan: push the Connection cells of row (i, j) onto `r`. */
  method ScanRow(places: PlaceGrid, i: int, j: int, r0: seq<Cell>) returns (r: seq<Cell>)
    requires IsGrid(places) && 0 <= i < Size && 0 <= j < Size
    ensures r == r0 + FrontierZ(places, i, j, 0)
  {
    r := r0;
    for k := 0 to places.Length2
      invariant r + FrontierZ(places, i, j, k) == r0 + FrontierZ(places, i, j, 0)
    {
      var cell := places[i, j, k];
      ghost var rest := FrontierZ(places, i, j, k + 1);
      if cell == Some(Connection) {
        assert FrontierZ(places, i, j, k) == [Cell(i, j, k)] + rest;
        ConcatAssoc(r, [Cell(i, j, k)], rest);
        r := r + [Cell(i, j, k)];
      } else {
        assert FrontierZ(places, i, j, k) == rest;
      }
    }
  }

  lemma ConcatAssoc(a: seq<Cell>, b: seq<Cell>, c: seq<Cell>)
    ensures a + (b + c) == (a + b) + c
  {
  }

  // ---------------------------------------------------------------------------------------
  // Validation of a proposal (the `valid` loop of `populate_rooms`)
  // ---------------------------------------------------------------------------------------

  /** A footprint cell the validation loop lets through: empty in `cube`, neither `None` nor Filled. */
  predicate Admits(cube: CubeGrid, places: PlaceGrid, c: Cell)
    requires IsGrid(cube) && IsGrid(places)
    reads cube, places
  {
    InGrid(c) && At(cube, c).None? && At(places, c).Some? && At(places, c).value != Filled
  }

  /** Outcome of the validation loop: an index past the grid (a panic in the source) or a verdict. */
  datatype Verdict = OutOfRange | Checked(valid: bool)

  /**
   * The validation loop over a proposal's cells. Every cell is looked at (there is no early exit
   * on an invalid cell); a cell outside the grid stops the loop, as the out-of-range index would.
   */
  method CheckCells(cube: CubeGrid, places: PlaceGrid, cells: seq<Cell>) returns (v: Verdict)
    requires IsGrid(cube) && IsGrid(places)
    ensures v == OutOfRange <==> exists i :: 0 <= i < |cells| && !InGrid(cells[i])
    ensures v.Checked? ==> (v.valid <==> forall i :: 0 <= i < |cells| ==> Admits(cube, places, cells[i]))
  {
    var valid := true;
    for i := 0 to |cells|
      invariant forall k :: 0 <= k < i ==> InGrid(cells[k])
      invariant valid <==> forall k :: 0 <= k < i ==> Admits(cube, places, cells[k])
    {
      var cell := cells[i];
      if !(0 <= cell.x < Size && 0 <= cell.y < Size && 0 <= cell.z < Size) {
        return OutOfRange;
      }
      if cube[cell.x, cell.y, cell.z].Some? {
        valid := false;
      }
      match places[cell.x, cell.y, cell.z]
      case Some(state) =>
        if state == Filled {
          valid := false;
        }
      case None =>
        valid := false;
    }
    return Checked(valid);
  }

  // ---------------------------------------------------------------------------------------
  // The growth invariant
  // ---------------------------------------------------------------------------------------

  /** Every cell of every committed room is off the 0-face and holds a room in `cube`. */
  ghost predicate Committed(cube: CubeGrid, rooms: seq<Room>)
    requires IsGrid(cube)
    reads cube
  {
    forall i, c :: 0 <= i < |rooms| && c in GetOccupiedCells(rooms[i]) ==> Inner(c) && At(cube, c).Some?
  }

  predicate Apart(a: Room, b: Room) {
    forall c :: c in GetOccupiedCells(a) ==> c !in GetOccupiedCells(b)
  }

  /** No two rooms share a cell. */
  predicate Disjoint(rooms: seq<Room>) {
    forall i, j :: 0 <= i < j < |rooms| ==> Apart(rooms[i], rooms[j])
  }

  /** `c` is one of the cells `calculate_connections` probes around `room`. */
  predicate Probed(room: Room, c: Cell) {
    c in ProbeTable(room)
  }

  /** Every room after the first is anchored on a probe cell of an earlier room. */
  predicate Connected(rooms: seq<Room>) {
    forall i :: 1 <= i < |rooms| ==> AnchoredAt(rooms, i)
  }

  /** Room `i` is anchored on a probe cell of a room before it. */
  predicate AnchoredAt(rooms: seq<Room>, i: nat)
    requires i < |rooms|
  {
    exists j :: 0 <= j < i && Probed(rooms[j], rooms[i].position)
  }

  /** Every Connection cell is a probe cell of some committed room. */
  ghost predicate FrontierTouches(places: PlaceGrid, rooms: seq<Room>)
    requires IsGrid(places)
    reads places
  {
    forall c :: IsConnection(places, c) ==> exists j :: 0 <= j < |rooms| && Probed(rooms[j], c)
  }

  /** What the room list of a growth keeps: the seed first, interior colours, disjoint and connected rooms. */
  predicate RoomsInv(rooms: seq<Room>) {
    && |rooms| >= 1 && rooms[0] == SeedRoom
    && (forall i :: 1 <= i < |rooms| ==> rooms[i].colour == InteriorColour(rooms[i].roomType))
    && Disjoint(rooms)
    && Connected(rooms)
  }

  ghost predicate GrowthInv(cube: CubeGrid, places: PlaceGrid, rooms: seq<Room>)
    reads cube, places
  {
    && IsGrid(cube) && IsGrid(places)
    && RoomsInv(rooms)
    // `Empty` is never written
    && (forall c :: InGrid(c) ==> At(places, c) != Some(Empty))
    // cells on the 0-face are never marked
    && (forall c :: InGrid(c) && At(places, c).Some? ==> Inner(c))
    && Committed(cube, rooms)
    && FrontierTouches(places, rooms)
  }

  /** A room whose cells are all off the 0-face has a probe that passes the filter. */
  lemma ProbeSurvives(room: Room)
    requires forall c :: c in GetOccupiedCells(room) ==> Inner(c)
    ensures AnyPasses(ProbeTable(room), GetOccupiedCells(room))
  {
    var p, cells, probes := room.position, GetOccupiedCells(room), ProbeTable(room);
    assert Inner(p) by { assert p in cells; }
    match room.roomType
    case R2 | R4 =>
      if p.y < Size - 1 {
        assert Passes(probes[0], cells);
      } else {
        assert Passes(probes[1], cells);
      }
    case _ =>
      if p.x < Size - 1 {
        assert Passes(probes[0], cells);
      } else {
        assert Passes(probes[1], cells);
      }
  }

  /** The probe coordinates of such a room are never negative: the `x-2` / `z-2` entries cannot underflow. */
  lemma ProbesNonNegative(room: Room)
    requires forall c :: c in GetOccupiedCells(room) ==> Inner(c)
    ensures NoUnderflow(ProbeTable(room))
  {
    var cells := GetOccupiedCells(room);
    assert cells[0] in cells;
    assert |cells| == 2 ==> cells[1] in cells;
  }

  /** Once a room's cells are all off the 0-face, its probes fill each of its cells in both grids. */
  lemma InnerRoomFills(room: Room, before: Option<State>, held: Option<Room>, c: Cell)
    requires forall f :: f in GetOccupiedCells(room) ==> Inner(f)
    requires c in GetOccupiedCells(room)
    ensures PlaceAfter(before, c, ProbeTable(room), GetOccupiedCells(room)) == Some(Filled)
    ensures CubeAfter(held, c, ProbeTable(room), GetOccupiedCells(room)) == Some(DummyRoom)
  {
    ProbeSurvives(room);
  }

  /**
   * The probe filter does not look at `Filled`: after the seed, a Cube committed at (6,5,5)
   * marks the seed's own cell Connection again, so the end room may be drawn onto the seed.
   */
  lemma SeedCellReopens()
    ensures var room := Room(Cube, Cell(6, 5, 5), Pink);
      PlaceAfter(Some(Filled), SeedRoom.position, ProbeTable(room), GetOccupiedCells(room)) == Some(Connection)
  {
  }

  // ---------------------------------------------------------------------------------------
  // One round of the growth loop
  // ---------------------------------------------------------------------------------------

  /** A caller-supplied outcome of the two `gen_range` calls of one round. */
  datatype Draw = Draw(kind: nat, anchor: nat)

  /** The source's panics, and the end of the supplied draws standing for a loop that would not stop. */
  datatype GenError = EmptyFrontier | IndexOutOfRange | DrawsExhausted

  datatype Outcome = Accepted | Rejected | Failed(error: GenError)

  /** The room a round proposes: type from the first draw, anchor from the frontier by the second. */
  ghost function Proposal(places: PlaceGrid, draw: Draw): Room
    requires IsGrid(places) && Frontier(places) != []
    reads places
  {
    var frontier := Frontier(places);
    var t := TypeOf(draw.kind % 5);
    Room(t, frontier[draw.anchor % |frontier|], InteriorColour(t))
  }

  /**
   * One iteration of `while rooms_to_go > 1`: propose, validate, and commit only a valid proposal.
   * A rejected or failed proposal changes neither grid, nor the room list, nor the counter.
   */
  method Propose(cube: CubeGrid, places: PlaceGrid, rooms: seq<Room>, toGo: nat, draw: Draw)
    returns (outcome: Outcome, rooms': seq<Room>, toGo': nat, ghost room: Room)
    requires GrowthInv(cube, places, rooms) && toGo > 1
    modifies cube, places
    ensures GrowthInv(cube, places, rooms')
    ensures outcome == Failed(EmptyFrontier) <==> old(Frontier(places)) == []
    ensures outcome.Failed? ==> outcome.error != DrawsExhausted
    ensures outcome != Accepted ==> rooms' == rooms && toGo' == toGo && unchanged(cube) && unchanged(places)
    ensures old(Frontier(places)) != [] ==>
      && room == old(Proposal(places, draw))
      && (outcome == Failed(IndexOutOfRange) <==>
            exists i :: 0 <= i < |GetOccupiedCells(room)| && !InGrid(GetOccupiedCells(room)[i]))
      && (outcome == Accepted <==>
            forall c :: c in GetOccupiedCells(room) ==> old(Admits(cube, places, c)))
    ensures outcome == Accepted ==>
      && rooms' == rooms + [room] && toGo' == toGo - 1
      && (forall c :: InGrid(c) ==>
            At(places, c) == PlaceAfter(old(At(places, c)), c, ProbeTable(room), GetOccupiedCells(room)))
      && (forall c :: InGrid(c) ==>
            At(cube, c) == CubeAfter(old(At(cube, c)), c, ProbeTable(room), GetOccupiedCells(room)))
  {
    rooms', toGo', room := rooms, toGo, SeedRoom;
    var frontier := GetPossibleConnections(places);
    if |frontier| == 0 {
      return Failed(EmptyFrontier), rooms', toGo', room;
    }
    var roomType := TypeOf(draw.kind % 5);
    var position := frontier[draw.anchor % |frontier|];
    var newRoom := Room(roomType, position, InteriorColour(roomType));
    room := newRoom;
    var cells := GetOccupiedCells(newRoom);
    var verdict := CheckCells(cube, places, cells);
    if verdict == OutOfRange {
      RefusedCell(cube, places, cells);
      return Failed(IndexOutOfRange), rooms', toGo', room;
    }
    if !verdict.valid {
      RefusedCell(cube, places, cells);
      return Rejected, rooms', toGo', room;
    }
    assert forall i :: 0 <= i < |cells| ==> Admits(cube, places, cells[i]);
    rooms' := AcceptRoom(cube, places, rooms, newRoom);
    toGo' := toGo - 1;
    outcome := Accepted;
  }

  /** The accepting branch of a round: commit a proposal anchored on the frontier whose cells all pass validation. */
  method AcceptRoom(cube: CubeGrid, places: PlaceGrid, rooms: seq<Room>, room: Room) returns (rooms': seq<Room>)
    requires GrowthInv(cube, places, rooms)
    requires room.colour == InteriorColour(room.roomType) && IsConnection(places, room.position)
    requires forall c :: c in GetOccupiedCells(room) ==> Admits(cube, places, c)
    modifies cube, places
    ensures GrowthInv(cube, places, rooms') && rooms' == rooms + [room]
    ensures forall c :: InGrid(c) ==>
      At(places, c) == PlaceAfter(old(At(places, c)), c, ProbeTable(room), GetOccupiedCells(room))
    ensures forall c :: InGrid(c) ==>
      At(cube, c) == CubeAfter(old(At(cube, c)), c, ProbeTable(room), GetOccupiedCells(room))
  {
    assert forall c :: c in GetOccupiedCells(room) ==> InGrid(c) && At(cube, c).None?;
    FreeCellsApart(cube, rooms, room);
    FrontierAnchor(places, rooms, room.position);
    rooms' := CommitRoom(cube, places, rooms, room);
    RoomsExtend(rooms, room);
  }

  /** A room on cells no committed room holds is apart from every committed room. */
  lemma FreeCellsApart(cube: CubeGrid, rooms: seq<Room>, room: Room)
    requires IsGrid(cube) && Committed(cube, rooms)
    requires forall c :: c in GetOccupiedCells(room) ==> InGrid(c) && At(cube, c).None?
    ensures forall i :: 0 <= i < |rooms| ==> Apart(rooms[i], room)
  {
    forall i, c | 0 <= i < |rooms| && c in GetOccupiedCells(rooms[i])
      ensures c !in GetOccupiedCells(room)
    {
      assert Inner(c) && At(cube, c).Some?;
    }
  }

  /** A frontier cell is a probe cell of some committed room. */
  lemma FrontierAnchor(places: PlaceGrid, rooms: seq<Room>, c: Cell)
    requires IsGrid(places) && FrontierTouches(places, rooms)
    requires IsConnection(places, c)
    ensures exists j :: 0 <= j < |rooms| && Probed(rooms[j], c)
  {
  }

  /** An index that fails the validation loop names a member of the cell list that fails it. */
  lemma RefusedCell(cube: CubeGrid, places: PlaceGrid, cells: seq<Cell>)
    requires IsGrid(cube) && IsGrid(places)
    requires exists i :: 0 <= i < |cells| && !Admits(cube, places, cells[i])
    ensures exists c :: c in cells && !Admits(cube, places, c)
  {
    var i :| 0 <= i < |cells| && !Admits(cube, places, cells[i]);
    assert cells[i] in cells;
  }

  /**
   * The commit of a valid proposal: `calculate_connections` with the room's own cells, then the push.
   * It keeps the parts of the growth invariant that read the grids.
   */
  method CommitRoom(cube: CubeGrid, places: PlaceGrid, rooms: seq<Room>, room: Room) returns (rooms': seq<Room>)
    requires IsGrid(cube) && IsGrid(places)
    requires forall c :: InGrid(c) ==> At(places, c) != Some(Empty)
    requires forall c :: InGrid(c) && At(places, c).Some? ==> Inner(c)
    requires Committed(cube, rooms) && FrontierTouches(places, rooms)
    requires forall c :: c in GetOccupiedCells(room) ==> Admits(cube, places, c)
    modifies cube, places
    ensures rooms' == rooms + [room]
    ensures forall c :: InGrid(c) ==>
      At(places, c) == PlaceAfter(old(At(places, c)), c, ProbeTable(room), GetOccupiedCells(room))
    ensures forall c :: InGrid(c) ==>
      At(cube, c) == CubeAfter(old(At(cube, c)), c, ProbeTable(room), GetOccupiedCells(room))
    ensures forall c :: InGrid(c) ==> At(places, c) != Some(Empty)
    ensures forall c :: InGrid(c) && At(places, c).Some? ==> Inner(c)
    ensures Committed(cube, rooms') && FrontierTouches(places, rooms')
  {
    var cells, probes := GetOccupiedCells(room), ProbeTable(room);
    assert forall c :: c in cells ==> At(places, c).Some? && InGrid(c);
    assert forall c :: c in cells ==> Inner(c);
    ProbeSurvives(room);
    ProbesNonNegative(room);
    CalculateConnections(room, cube, places, cells, rooms);
    rooms' := rooms + [room];
    assert forall c :: c in cells ==> At(cube, c).Some?;
    CommittedAppend(cube, rooms, room);
    assert FrontierTouches(places, rooms') by {
      forall c | IsConnection(places, c)
        ensures exists j :: 0 <= j < |rooms'| && Probed(rooms'[j], c)
      {
        if c in probes && Passes(c, cells) {
          assert rooms'[|rooms|] == room;
        } else {
          assert old(IsConnection(places, c));
          var j :| 0 <= j < |rooms| && Probed(rooms[j], c);
          assert rooms'[j] == rooms[j];
        }
      }
    }
  }

  /** A room whose cells are off the 0-face and hold a room can join the committed rooms. */
  lemma CommittedAppend(cube: CubeGrid, rooms: seq<Room>, room: Room)
    requires IsGrid(cube) && Committed(cube, rooms)
    requires forall c :: c in GetOccupiedCells(room) ==> Inner(c) && At(cube, c).Some?
    ensures Committed(cube, rooms + [room])
  {
    var rooms' := rooms + [room];
    forall i, c | 0 <= i < |rooms'| && c in GetOccupiedCells(rooms'[i])
      ensures Inner(c) && At(cube, c).Some?
    {
      if i < |rooms| {
        assert rooms'[i] == rooms[i];
      }
    }
  }

  /** Appending a coloured room, apart from the committed rooms and anchored on a probe cell of one, keeps the room-list invariant. */
  lemma RoomsExtend(rooms: seq<Room>, room: Room)
    requires RoomsInv(rooms)
    requires room.colour == InteriorColour(room.roomType)
    requires forall i :: 0 <= i < |rooms| ==> Apart(rooms[i], room)
    requires exists j :: 0 <= j < |rooms| && Probed(rooms[j], room.position)
    ensures RoomsInv(rooms + [room])
  {
    var rooms' := rooms + [room];
    DisjointExtend(rooms, room);
    ConnectedExtend(rooms, room);
    forall i | 1 <= i < |rooms'| ensures rooms'[i].colour == InteriorColour(rooms'[i].roomType) {
      if i < |rooms| {
        assert rooms'[i] == rooms[i];
      }
    }
  }

  /** A room apart from every committed room keeps the committed rooms pairwise disjoint. */
  lemma DisjointExtend(rooms: seq<Room>, room: Room)
    requires Disjoint(rooms)
    requires forall i :: 0 <= i < |rooms| ==> Apart(rooms[i], room)
    ensures Disjoint(rooms + [room])
  {
    var rooms' := rooms + [room];
    forall i, j | 0 <= i < j < |rooms'|
      ensures Apart(rooms'[i], rooms'[j])
    {
      assert rooms'[i] == rooms[i];
      if j < |rooms| {
        assert rooms'[j] == rooms[j];
      }
    }
  }

  /** A room anchored on a probe cell of a committed room keeps the rooms connected. */
  lemma ConnectedExtend(rooms: seq<Room>, room: Room)
    requires Connected(rooms)
    requires exists j :: 0 <= j < |rooms| && Probed(rooms[j], room.position)
    ensures Connected(rooms + [room])
  {
    var rooms' := rooms + [room];
    forall i | 1 <= i < |rooms'|
      ensures AnchoredAt(rooms', i)
    {
      if i < |rooms| {
        assert AnchoredAt(rooms, i);
        var j :| 0 <= j < i && Probed(rooms[j], rooms[i].position);
        assert rooms'[j] == rooms[j] && rooms'[i] == rooms[i];
        assert Probed(rooms'[j], rooms'[i].position);
      } else {
        var j :| 0 <= j < |rooms| && Probed(rooms[j], room.position);
        assert rooms'[j] == rooms[j] && rooms'[i] == room;
        assert Probed(rooms'[j], rooms'[i].position);
      }
    }
  }

  // ---------------------------------------------------------------------------------------
  // populate_rooms
  // ---------------------------------------------------------------------------------------

  /**
   * The seed step: fresh grids, `calculate_connections` for the seed room with its own cell,
   * the seed pushed, and `cube[5][5][5] = Some(seed_room)`.
   */
  method PlantSeed() returns (cube: CubeGrid, places: PlaceGrid)
    ensures fresh(cube) && fresh(places)
    ensures GrowthInv(cube, places, [SeedRoom])
    ensures forall c :: InGrid(c) ==>
      At(cube, c) == if c == SeedRoom.position then Some(SeedRoom) else None
    ensures forall c :: InGrid(c) ==>
      At(places, c) == if c == SeedRoom.position then Some(Filled)
                       else if c in ProbeTable(SeedRoom) then Some(Connection) else None
  {
    cube := new Option<Room>[Size, Size, Size]((i, j, k) => None);
    places := new Option<State>[Size, Size, Size]((i, j, k) => None);
    var cells := GetOccupiedCells(SeedRoom);
    ProbeSurvives(SeedRoom);
    CalculateConnections(SeedRoom, cube, places, cells, []);
    cube[5, 5, 5] := Some(SeedRoom);
    assert Committed(cube, [SeedRoom]) by {
      forall i, c | 0 <= i < 1 && c in GetOccupiedCells([SeedRoom][i])
        ensures Inner(c) && At(cube, c).Some?
      {
        assert c == Cell(5, 5, 5);
      }
    }
    assert FrontierTouches(places, [SeedRoom]) by {
      forall c | IsConnection(places, c)
        ensures exists j :: 0 <= j < 1 && Probed([SeedRoom][j], c)
      {
        assert Probed([SeedRoom][0], c);
      }
    }
    assert RoomsInv([SeedRoom]);
  }

  /** The output of a finished growth: the seed, `max(n, 1) - 1` interior rooms and the end room. */
  predicate Grown(rooms: seq<Room>, n: nat) {
    && |rooms| == (if n == 0 then 1 else n) + 1
    && RoomsInv(rooms[..|rooms| - 1])
    && OnInnerCells(rooms[..|rooms| - 1])
    && var end := rooms[|rooms| - 1];
       && end.roomType == Cube && end.colour == Yellow && Inner(end.position)
       && exists j :: 0 <= j < |rooms| - 1 && Probed(rooms[j], end.position)
  }

  /**
   * `populate_rooms(n)`: the seed, then rounds until `n - 1` interior rooms are committed, then the
   * end room at a frontier cell chosen by `endDraw`. Round `k` uses `draws[k]`; running out of
   * draws stands for a loop that has not stopped yet.
   */
  method PopulateRooms(n: nat, draws: seq<Draw>, endDraw: nat)
    returns (r: Result<seq<Room>, GenError>, ghost finalPlaces: PlaceGrid, ghost rounds: nat)
    ensures IsGrid(finalPlaces) && rounds <= |draws|
    ensures r.Ok? ==> Grown(r.value, n)
    ensures r.Ok? ==> n <= rounds + 1
    ensures n <= 1 ==> r.Ok?
    ensures r.Ok? ==>
      var frontier := Frontier(finalPlaces);
      var end := r.value[|r.value| - 1];
      && frontier != [] && IsConnection(finalPlaces, end.position)
      && end.position == frontier[endDraw % |frontier|]
    ensures r == Err(EmptyFrontier) ==> Frontier(finalPlaces) == []
    ensures r == Err(IndexOutOfRange) ==>
      && 0 < rounds && Frontier(finalPlaces) != []
      && var cells := GetOccupiedCells(Proposal(finalPlaces, draws[rounds - 1]));
         exists i :: 0 <= i < |cells| && !InGrid(cells[i])
    ensures r == Err(DrawsExhausted) ==> rounds == |draws| && n >= 2
  {
    var cube, places := PlantSeed();
    assert IsConnection(places, Cell(6, 5, 5));
    var failure, rooms;
    failure, rooms, rounds := GrowRooms(cube, places, n, draws);
    finalPlaces := places;
    if failure.Some? {
      return Err(failure.value), finalPlaces, rounds;
    }
    var frontier := GetPossibleConnections(places);
    if |frontier| == 0 {
      return Err(EmptyFrontier), finalPlaces, rounds;
    }
    var position := frontier[endDraw % |frontier|];
    var endRoom := Room(Cube, position, Yellow);
    GrowthFacts(cube, places, rooms, position);
    EndRoomCompletes(rooms, n, position);
    r := Ok(rooms + [endRoom]);
  }

  /**
   * The `while rooms_to_go > 1` loop of `populate_rooms`, from the planted seed: rounds until the
   * quota is met, a round fails, or the draws run out.
   */
  method GrowRooms(cube: CubeGrid, places: PlaceGrid, n: nat, draws: seq<Draw>)
    returns (failure: Option<GenError>, rooms: seq<Room>, rounds: nat)
    requires GrowthInv(cube, places, [SeedRoom]) && IsConnection(places, Cell(6, 5, 5))
    modifies cube, places
    ensures GrowthInv(cube, places, rooms) && rounds <= |draws|
    ensures failure.None? ==> |rooms| == (if n == 0 then 1 else n) && n <= rounds + 1
    ensures n <= 1 ==> failure.None? && IsConnection(places, Cell(6, 5, 5))
    ensures failure == Some(EmptyFrontier) ==> Frontier(places) == []
    ensures failure == Some(IndexOutOfRange) ==>
      && 0 < rounds && Frontier(places) != []
      && var cells := GetOccupiedCells(Proposal(places, draws[rounds - 1]));
         exists i :: 0 <= i < |cells| && !InGrid(cells[i])
    ensures failure == Some(DrawsExhausted) ==> rounds == |draws| && |rooms| < n
  {
    rooms := [SeedRoom];
    var toGo := n;
    rounds := 0;
    while toGo > 1
      invariant GrowthInv(cube, places, rooms)
      invariant n >= 1 ==> |rooms| + toGo == n + 1 && 1 <= toGo
      invariant n == 0 ==> rooms == [SeedRoom] && toGo == 0
      invariant toGo <= n && rounds <= |draws| && n <= rounds + toGo
      invariant n <= 1 ==> IsConnection(places, Cell(6, 5, 5))
      decreases |draws| - rounds
    {
      if rounds == |draws| {
        return Some(DrawsExhausted), rooms, rounds;
      }
      var outcome;
      ghost var proposed;
      outcome, rooms, toGo, proposed := Propose(cube, places, rooms, toGo, draws[rounds]);
      rounds := rounds + 1;
      if outcome.Failed? {
        return Some(outcome.error), rooms, rounds;
      }
    }
    failure := None;
  }

  /** Every cell of every room is off the 0-face. */
  predicate OnInnerCells(rooms: seq<Room>) {
    forall i, c :: 0 <= i < |rooms| && c in GetOccupiedCells(rooms[i]) ==> Inner(c)
  }

  /** The committed rooms of a growth lie on inner cells, and a frontier cell is inner and probed by one of them. */
  lemma GrowthFacts(cube: CubeGrid, places: PlaceGrid, rooms: seq<Room>, position: Cell)
    requires GrowthInv(cube, places, rooms)
    requires IsConnection(places, position)
    ensures RoomsInv(rooms) && OnInnerCells(rooms) && Inner(position)
    ensures exists j :: 0 <= j < |rooms| && Probed(rooms[j], position)
  {
    FrontierAnchor(places, rooms, position);
    CommittedInner(cube, rooms);
  }

  lemma CommittedInner(cube: CubeGrid, rooms: seq<Room>)
    requires IsGrid(cube) && Committed(cube, rooms)
    ensures OnInnerCells(rooms)
  {
    forall i, c | 0 <= i < |rooms| && c in GetOccupiedCells(rooms[i])
      ensures Inner(c)
    {
      assert Inner(c) && At(cube, c).Some?;
    }
  }

  /** A yellow Cube end room at an inner cell probed by a committed room completes a growth that has met its quota. */
  lemma EndRoomCompletes(rooms: seq<Room>, n: nat, position: Cell)
    requires RoomsInv(rooms) && OnInnerCells(rooms) && Inner(position)
    requires |rooms| == if n == 0 then 1 else n
    requires exists j :: 0 <= j < |rooms| && Probed(rooms[j], position)
    ensures Grown(rooms + [Room(Cube, position, Yellow)], n)
  {
    var result := rooms + [Room(Cube, position, Yellow)];
    assert result[..|result| - 1] == rooms;
    var j :| 0 <= j < |rooms| && Probed(rooms[j], position);
    assert result[j] == rooms[j];
  }
}
