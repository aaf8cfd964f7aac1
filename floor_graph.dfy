/**
 * The linear dungeon graph of `src/floor.rs`: seven room nodes (Start, End, five Normal) built in
 * order, shuffled, End moved off index 1, and chained by the edges `(i, i + 1)`.
 */
module FloorGraph {

  datatype Direction = N | S | E | W

  datatype RoomTemplate = Start | End | Normal

  datatype Room = Room(template: RoomTemplate, exits: seq<(Direction, bool)>)

  /** The exits each template is built with. */
  function ExitsOf(t: RoomTemplate): seq<(Direction, bool)> {
    match t
    case Start => [(N, true)]
    case End => [(S, true)]
    case Normal => [(N, true), (S, true)]
  }

  const StartRoom := Room(Start, ExitsOf(Start))
  const EndRoom := Room(End, ExitsOf(End))
  const NormalRoom := Room(Normal, ExitsOf(Normal))

  /** `number_of_normal_rooms`. */
  const NormalRooms := 5

  /** The nodes in the order they are pushed: Start, End, then the Normal rooms. */
  function InitialNodes(): seq<Room> {
    [StartRoom, EndRoom] + seq(NormalRooms, _ => NormalRoom)
  }

  /** `Vec::swap(i, j)`. */
  function Swapped(s: seq<Room>, i: nat, j: nat): (r: seq<Room>)
    requires i < |s| && j < |s|
    ensures |r| == |s| && multiset(r) == multiset(s)
    ensures r[i] == s[j] && r[j] == s[i]
    ensures forall k :: 0 <= k < |s| && k != i && k != j ==> r[k] == s[k]
  {
    s[i := s[j]][j := s[i]]
  }

  /**
   * What the edge loop does to the node order: End at index 1 changes places with index 2; End
   * anywhere else, and every other order, is left as shuffled.
   */
  function MoveEndFromOne(s: seq<Room>): (r: seq<Room>)
    ensures multiset(r) == multiset(s) && |r| == |s|
    ensures |s| >= 3 && s[1].template == End ==>
      && r[1] == s[2] && r[2] == s[1]
      && forall k :: 0 <= k < |s| && k != 1 && k != 2 ==> r[k] == s[k]
    ensures |s| < 3 || s[1].template != End ==> r == s
    ensures |s| >= 3 && r[1].template == End ==> s[2].template == End
  {
    if |s| >= 3 && s[1].template == End then Swapped(s, 1, 2) else s
  }

  /** The edges pushed by the loop: `(i, i + 1)` for every `i < n`. */
  function Chain(n: nat): (r: seq<(nat, nat)>)
    ensures |r| == n
    ensures forall i :: 0 <= i < n ==> r[i].0 == i && r[i].1 == i + 1
  {
    seq(n, i => (i, i + 1))
  }

  class DungeonGraph {
    var nodes: seq<Room>
    var edges: seq<(nat, nat)>

    constructor ()
      ensures nodes == [] && edges == []
    {
      nodes, edges := [], [];
    }

    /**
     * `nodes.shuffle(rng)` as rand performs it: for `i` from the last index down to 1, swap `i`
     * with a position drawn from `0..=i`; the `k`-th draw `d` stands for position `d % (i + 1)`.
     */
    method Shuffle(draws: seq<nat>)
      requires |draws| + 1 >= |nodes|
      modifies this
      ensures |nodes| == |old(nodes)| && multiset(nodes) == multiset(old(nodes))
      ensures edges == old(edges)
    {
      var i := |nodes|;
      while i > 1
        invariant 0 <= i <= |nodes|
        invariant |nodes| == |old(nodes)| && multiset(nodes) == multiset(old(nodes))
        invariant edges == old(edges)
      {
        i := i - 1;
        var j := draws[|nodes| - 1 - i] % (i + 1);
        nodes := Swapped(nodes, i, j);
      }
    }
  }

  /**
   * `generate_simple_dungeon`, with the shuffle's six draws supplied by the caller; `shuffled` is
   * the node order right after the shuffle.
   */
  method GenerateSimpleDungeon(draws: seq<nat>) returns (graph: DungeonGraph, ghost shuffled: seq<Room>)
    requires |draws| == |InitialNodes()| - 1
    ensures fresh(graph)
    ensures multiset(shuffled) == multiset(InitialNodes())
    ensures graph.nodes == MoveEndFromOne(shuffled)
    ensures graph.edges == Chain(|graph.nodes| - 1)
  {
    graph := new DungeonGraph();
    graph.nodes := graph.nodes + [StartRoom];
    graph.nodes := graph.nodes + [EndRoom];
    for n := 0 to NormalRooms
      invariant graph.nodes == [StartRoom, EndRoom] + seq(n, _ => NormalRoom)
      invariant graph.edges == []
    {
      graph.nodes := graph.nodes + [NormalRoom];
    }
    graph.Shuffle(draws);
    shuffled := graph.nodes;
    for i := 0 to |graph.nodes| - 1
      invariant |graph.nodes| == |shuffled|
      invariant graph.nodes == if i <= 1 then shuffled else MoveEndFromOne(shuffled)
      invariant graph.edges == Chain(i)
    {
      match graph.nodes[i].template {
        case End =>
          if i == 1 {
            graph.nodes := Swapped(graph.nodes, i, i + 1);
          }
        case _ =>
      }
      ChainGrows(i);
      graph.edges := graph.edges + [(i, i + 1)];
    }
  }

  /** One more pass of the edge loop extends the chain by the edge `(n, n + 1)`. */
  lemma ChainGrows(n: nat)
    ensures Chain(n) + [(n, n + 1)] == Chain(n + 1)
  {
    assert forall i :: 0 <= i < n ==> (Chain(n) + [(n, n + 1)])[i] == Chain(n)[i];
  }

  /** A value that occurs at two positions occurs at least twice in the multiset. */
  lemma TwiceIn(s: seq<Room>, i: nat, j: nat)
    requires i < j < |s| && s[i] == s[j]
    ensures multiset(s)[s[i]] >= 2
  {
    assert s == s[..j] + s[j..];
    assert s[i] in s[..j];
    assert s[j] in s[j..];
  }

  /** Any order of the initial nodes has one Start, one End and five Normal rooms, and nothing else. */
  lemma NodeCounts(s: seq<Room>)
    requires multiset(s) == multiset(InitialNodes())
    ensures |s| == 7
    ensures multiset(s)[StartRoom] == 1 && multiset(s)[EndRoom] == 1 && multiset(s)[NormalRoom] == 5
    ensures forall r :: r in s ==> r == StartRoom || r == EndRoom || r == NormalRoom
  {
    InitialCounts();
    assert |s| == |multiset(s)|;
    forall r | r in s ensures r == StartRoom || r == EndRoom || r == NormalRoom {
      assert r in multiset(s);
    }
  }

  /** The initial node list itself: seven rooms, one Start, one End and five Normal. */
  lemma InitialCounts()
    ensures |multiset(InitialNodes())| == 7
    ensures var m := multiset(InitialNodes());
      m[StartRoom] == 1 && m[EndRoom] == 1 && m[NormalRoom] == 5
    ensures forall r :: r in multiset(InitialNodes()) ==> r == StartRoom || r == EndRoom || r == NormalRoom
  {
    UniformCount(NormalRooms);
    assert multiset(InitialNodes()) == multiset([StartRoom, EndRoom]) + multiset(seq(NormalRooms, _ => NormalRoom));
  }

  /** `n` Normal rooms in a row, as a multiset: Normal `n` times and nothing else. */
  lemma {:induction false} UniformCount(n: nat)
    ensures multiset(seq(n, _ => NormalRoom)) == multiset{}[NormalRoom := n]
  {
    if n > 0 {
      UniformCount(n - 1);
      assert seq(n, _ => NormalRoom) == seq(n - 1, _ => NormalRoom) + [NormalRoom];
    }
  }

  /** In any order of the initial nodes, every room carries the exits of its template. */
  lemma ExitsFollowTemplate(s: seq<Room>)
    requires multiset(s) == multiset(InitialNodes())
    ensures forall r :: r in s ==> r.exits == ExitsOf(r.template)
  {
    NodeCounts(s);
  }

  /** After the edge loop End is never at index 1, whatever order the shuffle produced. */
  lemma EndAwayFromOne(s: seq<Room>)
    requires multiset(s) == multiset(InitialNodes())
    ensures MoveEndFromOne(s)[1].template != End
  {
    NodeCounts(s);
    var r := MoveEndFromOne(s);
    if r[1].template == End {
      assert s[1] in s && s[2] in s;
      assert s[1] == EndRoom && s[2] == EndRoom;
      TwiceIn(s, 1, 2);
    }
  }

  /** The built graph: seven nodes with one Start and one End, End off index 1, and six chain edges. */
  lemma DungeonShape(shuffled: seq<Room>)
    requires multiset(shuffled) == multiset(InitialNodes())
    ensures var nodes := MoveEndFromOne(shuffled);
      && |nodes| == 7 && |Chain(|nodes| - 1)| == 6
      && multiset(nodes)[StartRoom] == 1 && multiset(nodes)[EndRoom] == 1 && multiset(nodes)[NormalRoom] == 5
      && nodes[1].template != End
  {
    NodeCounts(MoveEndFromOne(shuffled));
    EndAwayFromOne(shuffled);
  }
}
