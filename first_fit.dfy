/**
 * The box-placement sketch of `src/dump.rs` (its second definitions): weighted choice of a room
 * type, the box-validity test, and first-fit placement scanning anchors in lexicographic order.
 *
 * The cube is the same 10x10x10 grid of optional rooms as the room grower's; every room here is an
 * axis-aligned box of `dims` cells anchored at its lowest corner.
 */
module FirstFit {
  import opened Wrappers

  const Size: int := 10

  datatype RoomType = Cube | RectPrism

  datatype Point = Point(x: nat, y: nat, z: nat)

  datatype Dims = Dims(x: nat, y: nat, z: nat)

  datatype Room = Room(roomType: RoomType, dims: Dims, position: Option<Point>)

  type Grid = array3<Option<Room>>

  predicate IsCube(cube: Grid) {
    cube.Length0 == Size && cube.Length1 == Size && cube.Length2 == Size
  }

  // ---------------------------------------------------------------------------------------
  // generate_rooms: weighted choice
  // ---------------------------------------------------------------------------------------

  /** The weight table in the map's iteration order. */
  type Weights = seq<(RoomType, nat)>

  /** Sum of the first `k` weights: `cumulative_weight` after `k` entries. */
  function Prefix(ws: Weights, k: nat): nat
    requires k <= |ws|
  {
    if k == 0 then 0 else Prefix(ws, k - 1) + ws[k - 1].1
  }

  /** `weights.values().sum()`. */
  function Total(ws: Weights): nat {
    Prefix(ws, |ws|)
  }

  /** Entry `i` is the first whose cumulative weight exceeds `v`. */
  predicate FirstAbove(ws: Weights, v: nat, i: int) {
    && 0 <= i < |ws|
    && v < Prefix(ws, i + 1)
    && forall k :: 1 <= k <= i ==> Prefix(ws, k) <= v
  }

  function DimsOf(t: RoomType): Dims {
    match t
    case Cube => Dims(1, 1, 1)
    case RectPrism => Dims(1, 1, 2)
  }

  /** The inner loop of `generate_rooms`: walk the table accumulating weights, stop at the first that exceeds `v`. */
  method SelectType(ws: Weights, v: nat) returns (t: Option<RoomType>)
    ensures t.Some? <==> v < Total(ws)
    ensures t.Some? ==> exists i :: FirstAbove(ws, v, i) && t.value == ws[i].0
  {
    var cumulative := 0;
    for i := 0 to |ws|
      invariant cumulative == Prefix(ws, i)
      invariant forall k :: 1 <= k <= i ==> Prefix(ws, k) <= v
    {
      cumulative := cumulative + ws[i].1;
      if v < cumulative {
        assert FirstAbove(ws, v, i);
        PrefixMonotone(ws, i + 1, |ws|);
        return Some(ws[i].0);
      }
    }
    return None;
  }

  /** `gen_range(0..0)` panics: a table of total weight 0 cannot produce a room. */
  datatype WeightError = EmptyRange

  /**
   * `generate_rooms(weights, num_rooms)`, one draw per room (`num_rooms` is `|draws|`); draw `d`
   * stands for `gen_range(0..total)` returning `d % total`.
   */
  method GenerateRooms(ws: Weights, draws: seq<nat>) returns (r: Result<seq<Room>, WeightError>)
    ensures r.Err? <==> Total(ws) == 0 && |draws| > 0
    ensures r.Ok? ==> |r.value| == |draws|
    ensures r.Ok? ==> forall n :: 0 <= n < |r.value| ==>
      && r.value[n].position == None
      && r.value[n].dims == DimsOf(r.value[n].roomType)
      && exists i :: FirstAbove(ws, draws[n] % Total(ws), i) && r.value[n].roomType == ws[i].0
  {
    var total := Total(ws);
    if total == 0 && |draws| > 0 {
      return Err(EmptyRange);
    }
    var rooms: seq<Room> := [];
    for n := 0 to |draws|
      invariant |rooms| == n
      invariant forall m :: 0 <= m < n ==>
        && rooms[m].position == None
        && rooms[m].dims == DimsOf(rooms[m].roomType)
        && exists i :: FirstAbove(ws, draws[m] % total, i) && rooms[m].roomType == ws[i].0
    {
      var randVal := draws[n] % total;
      var t := SelectType(ws, randVal);
      rooms := rooms + [Room(t.value, DimsOf(t.value), None)];
    }
    return Ok(rooms);
  }

  /** Cumulative weights never decrease along the table. */
  lemma {:induction false} PrefixMonotone(ws: Weights, j: nat, k: nat)
    requires j <= k <= |ws|
    ensures Prefix(ws, j) <= Prefix(ws, k)
    decreases k - j
  {
    if j < k {
      PrefixMonotone(ws, j, k - 1);
    }
  }

  /** At most one entry is the first to exceed a value. */
  lemma FirstAboveUnique(ws: Weights, v: nat, i: int, j: int)
    requires FirstAbove(ws, v, i) && FirstAbove(ws, v, j)
    ensures i == j
  {
  }

  /** Every value below the total selects some entry. */
  lemma {:induction false} BelowTotalSelects(ws: Weights, v: nat)
    requires v < Total(ws)
    ensures exists i :: FirstAbove(ws, v, i)
  {
    var k := |ws|;
    // the least prefix length whose sum exceeds v
    while 0 < k && v < Prefix(ws, k - 1)
      invariant 0 <= k <= |ws| && v < Prefix(ws, k)
    {
      k := k - 1;
    }
    assert k > 0;
    forall m | 1 <= m <= k - 1 ensures Prefix(ws, m) <= v {
      PrefixMonotone(ws, m, k - 1);
    }
    assert FirstAbove(ws, v, k - 1);
  }

  /** An entry of positive weight is selected by the values `[Prefix(i), Prefix(i + 1))`, so every such type can occur. */
  lemma PositiveWeightSelectable(ws: Weights, i: nat, v: nat)
    requires i < |ws| && Prefix(ws, i) <= v < Prefix(ws, i + 1)
    ensures FirstAbove(ws, v, i)
  {
    forall k | 1 <= k <= i ensures Prefix(ws, k) <= v {
      PrefixMonotone(ws, k, i);
    }
  }

  // ---------------------------------------------------------------------------------------
  // check_valid_placement and place_room
  // ---------------------------------------------------------------------------------------

  /** Cell `q` lies in the box of extent `d` anchored at `p` (`x..x + dim_x` and so on). */
  predicate InBox(q: Point, p: Point, d: Dims) {
    p.x <= q.x < p.x + d.x && p.y <= q.y < p.y + d.y && p.z <= q.z < p.z + d.z
  }

  /** Cell `q` is inside the cube and holds no room. */
  predicate Free(cube: Grid, q: Point)
    reads cube
  {
    q.x < cube.Length0 && q.y < cube.Length1 && q.z < cube.Length2 && cube[q.x, q.y, q.z].None?
  }

  /** Every cell of the box lies inside the cube and is `None`. */
  ghost predicate BoxFree(cube: Grid, p: Point, d: Dims)
    reads cube
  {
    forall q :: InBox(q, p, d) ==> Free(cube, q)
  }

  /**
   * `check_valid_placement(room, cube, x, y, z)`: the nested scan of the box that returns false at
   * the first cell outside the cube or holding a room.
   */
  method CheckValidPlacement(room: Room, cube: Grid, x: nat, y: nat, z: nat) returns (valid: bool)
    ensures valid <==> BoxFree(cube, Point(x, y, z), room.dims)
  {
    var p, d := Point(x, y, z), room.dims;
    for i := x to x + d.x
      invariant forall q :: InBox(q, p, d) && q.x < i ==> Free(cube, q)
    {
      for j := y to y + d.y
        invariant forall q :: InBox(q, p, d) && (q.x < i || (q.x == i && q.y < j)) ==> Free(cube, q)
      {
        var ok := CheckLine(cube, p, d, i, j);
        if !ok {
          return false;
        }
      }
    }
    return true;
  }

  /** The innermost `k` loop of `check_valid_placement`, along the line `(i, j, _)` of the box. */
  method CheckLine(cube: Grid, p: Point, d: Dims, i: nat, j: nat) returns (ok: bool)
    ensures ok <==> forall k :: p.z <= k < p.z + d.z ==> Free(cube, Point(i, j, k))
  {
    for k := p.z to p.z + d.z
      invariant forall k' :: p.z <= k' < k ==> Free(cube, Point(i, j, k'))
    {
      if i >= cube.Length0 || j >= cube.Length1 || k >= cube.Length2 || cube[i, j, k].Some? {
        assert !Free(cube, Point(i, j, k));
        return false;
      }
    }
    return true;
  }

  /** The subtractions `cube.len() - dim + 1` of `place_room` do not underflow. */
  predicate Fits(d: Dims) {
    d.x <= Size && d.y <= Size && d.z <= Size
  }

  /** Every room `generate_rooms` builds fits, so placing it never underflows `cube.len() - dim + 1`. */
  lemma GeneratedRoomsFit(t: RoomType)
    ensures Fits(DimsOf(t))
  {
  }

  /** Anchor `p` lies in the range `place_room` scans, `0..len - dim + 1` on each axis. */
  predicate InScan(p: Point, d: Dims) {
    p.x <= Size - d.x && p.y <= Size - d.y && p.z <= Size - d.z
  }

  /** Lexicographic order on anchors, the order of the nested `x, y, z` loops. */
  predicate ScanBefore(a: Point, b: Point) {
    a.x < b.x || (a.x == b.x && (a.y < b.y || (a.y == b.y && a.z < b.z)))
  }

  /** `p` is the first anchor in scan order whose box is free. */
  ghost predicate FirstFree(cube: Grid, d: Dims, p: Point)
    reads cube
  {
    && InScan(p, d) && BoxFree(cube, p, d)
    && forall q :: InScan(q, d) && ScanBefore(q, p) ==> !BoxFree(cube, q, d)
  }

  /** Scan order is total, so at most one anchor is the first free one. */
  lemma FirstFreeUnique(cube: Grid, d: Dims, p: Point, q: Point)
    requires FirstFree(cube, d, p) && FirstFree(cube, d, q)
    ensures p == q
  {
  }

  /** The scan of `place_room`: the anchors in lexicographic order, stopping at the first valid one. */
  method FindAnchor(room: Room, cube: Grid) returns (anchor: Option<Point>)
    requires IsCube(cube) && Fits(room.dims)
    ensures anchor.None? <==> forall p :: InScan(p, room.dims) ==> !BoxFree(cube, p, room.dims)
    ensures anchor.Some? ==> FirstFree(cube, room.dims, anchor.value)
  {
    var d := room.dims;
    for x := 0 to Size - d.x + 1
      invariant forall q :: InScan(q, d) && q.x < x ==> !BoxFree(cube, q, d)
    {
      for y := 0 to Size - d.y + 1
        invariant forall q :: InScan(q, d) && (q.x < x || (q.x == x && q.y < y)) ==> !BoxFree(cube, q, d)
      {
        var z := ScanLine(room, cube, x, y);
        if z.Some? {
          return Some(Point(x, y, z.value));
        }
      }
    }
    return None;
  }

  /** The innermost `z` loop of the scan, along the anchors `(x, y, _)`. */
  method ScanLine(room: Room, cube: Grid, x: nat, y: nat) returns (z: Option<nat>)
    requires Fits(room.dims) && x <= Size - room.dims.x && y <= Size - room.dims.y
    ensures z.None? ==> forall q :: InScan(q, room.dims) && q.x == x && q.y == y ==> !BoxFree(cube, q, room.dims)
    ensures z.Some? ==>
      && InScan(Point(x, y, z.value), room.dims) && BoxFree(cube, Point(x, y, z.value), room.dims)
      && forall q :: InScan(q, room.dims) && q.x == x && q.y == y && q.z < z.value ==> !BoxFree(cube, q, room.dims)
  {
    var d := room.dims;
    for k := 0 to Size - d.z + 1
      invariant forall q :: InScan(q, d) && q.x == x && q.y == y && q.z < k ==> !BoxFree(cube, q, d)
    {
      var valid := CheckValidPlacement(room, cube, x, y, k);
      if valid {
        return Some(k);
      }
    }
    return None;
  }

  /** The three fill loops of `place_room`: every cell of the box receives the room. */
  method FillBox(room: Room, cube: Grid, p: Point)
    requires IsCube(cube)
    requires p.x + room.dims.x <= Size && p.y + room.dims.y <= Size && p.z + room.dims.z <= Size
    modifies cube
    ensures forall i, j, k :: 0 <= i < Size && 0 <= j < Size && 0 <= k < Size ==>
      cube[i, j, k] == if InBox(Point(i, j, k), p, room.dims) then Some(room) else old(cube[i, j, k])
  {
    var d := room.dims;
    for i := p.x to p.x + d.x
      invariant forall i', j, k :: 0 <= i' < Size && 0 <= j < Size && 0 <= k < Size ==>
        cube[i', j, k] == if InBox(Point(i', j, k), p, d) && i' < i then Some(room) else old(cube[i', j, k])
    {
      FillPlane(room, cube, p, i);
    }
  }

  /** One `i` step of the fill: the plane `(i, _, _)` of the box. */
  method FillPlane(room: Room, cube: Grid, p: Point, i: nat)
    requires IsCube(cube) && i < Size
    requires p.y + room.dims.y <= Size && p.z + room.dims.z <= Size
    modifies cube
    ensures forall i', j, k :: 0 <= i' < Size && 0 <= j < Size && 0 <= k < Size ==>
      cube[i', j, k] ==
        if i' == i && p.y <= j < p.y + room.dims.y && p.z <= k < p.z + room.dims.z then Some(room)
        else old(cube[i', j, k])
  {
    var d := room.dims;
    for j := p.y to p.y + d.y
      invariant forall i', j', k :: 0 <= i' < Size && 0 <= j' < Size && 0 <= k < Size ==>
        cube[i', j', k] ==
          if i' == i && p.y <= j' < j && p.z <= k < p.z + d.z then Some(room) else old(cube[i', j', k])
    {
      for k := p.z to p.z + d.z
        invariant forall i', j', k' :: 0 <= i' < Size && 0 <= j' < Size && 0 <= k' < Size ==>
          cube[i', j', k'] ==
            if i' == i && ((p.y <= j' < j && p.z <= k' < p.z + d.z) || (j' == j && p.z <= k' < k)) then Some(room)
            else old(cube[i', j', k'])
      {
        cube[i, j, k] := Some(room);
      }
    }
  }

  /**
   * `place_room(room, cube)`: the first anchor in scan order whose box is free receives the room in
   * every cell of its box; when no anchor is valid the cube is left as it was.
   */
  method PlaceRoom(room: Room, cube: Grid) returns (placed: bool, ghost anchor: Point)
    requires IsCube(cube) && Fits(room.dims)
    modifies cube
    ensures placed <==> exists p :: InScan(p, room.dims) && old(BoxFree(cube, p, room.dims))
    ensures placed ==> old(FirstFree(cube, room.dims, anchor))
    ensures placed ==> forall i, j, k :: 0 <= i < Size && 0 <= j < Size && 0 <= k < Size ==>
      cube[i, j, k] == if InBox(Point(i, j, k), anchor, room.dims) then Some(room) else old(cube[i, j, k])
    ensures !placed ==> unchanged(cube)
  {
    anchor := Point(0, 0, 0);
    var found := FindAnchor(room, cube);
    if found.None? {
      return false, anchor;
    }
    anchor := found.value;
    FillBox(room, cube, found.value);
    return true, anchor;
  }
}
