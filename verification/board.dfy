// Grid geometry shared by the two laser-puzzle variants (casual-critique and
// casual-prototype): vectors, the four directions, row-major grid access and
// the closed form of a beam that runs through empty cells.

module Board {

  datatype Option<T> = None | Some(value: T)

  /** A cell position or an offset between cells. */
  datatype Vector = Vector(x: int, y: int)
  {
    function Plus(v: Vector): Vector { Vector(x + v.x, y + v.y) }
    function Minus(v: Vector): Vector { Vector(x - v.x, y - v.y) }
  }

  /** The four beam directions; y grows downwards. */
  datatype Dir = Right | Up | Left | Down
  {
    function Delta(): Vector {
      match this
      case Right => Vector(1, 0)
      case Up => Vector(0, -1)
      case Left => Vector(-1, 0)
      case Down => Vector(0, 1)
    }
  }

  /** The order of the direction table: a level code's direction digit indexes it. */
  const Dirs: seq<Dir> := [Right, Up, Left, Down]

  /** The position of `d` in the direction table. */
  function DirIndex(d: Dir): (i: nat)
    ensures i < |Dirs| && Dirs[i] == d
  {
    match d
    case Right => 0
    case Up => 1
    case Left => 2
    case Down => 3
  }

  function Step(p: Vector, d: Dir): Vector { p.Plus(d.Delta()) }

  /** toDir: the index of an offset in the direction table, or -1 when it is no direction. */
  method ToDir(v: Vector) returns (i: int)
    ensures -1 <= i < |Dirs|
    ensures 0 <= i ==> Dirs[i].Delta() == v
    ensures i == -1 ==> forall d: Dir :: d.Delta() != v
  {
    var k := 0;
    while k < |Dirs|
      invariant 0 <= k <= |Dirs|
      invariant forall j :: 0 <= j < k ==> Dirs[j].Delta() != v
    {
      if Dirs[k].Delta() == v {
        return k;
      }
      k := k + 1;
    }
    forall d: Dir
      ensures d.Delta() != v
    {
      match d
      case Right => assert d == Dirs[0];
      case Up => assert d == Dirs[1];
      case Left => assert d == Dirs[2];
      case Down => assert d == Dirs[3];
    }
    return -1;
  }

  predicate InBounds(w: int, h: int, p: Vector) {
    0 <= p.x < w && 0 <= p.y < h
  }

  /** A grid of `h` rows of `w` cells, indexed `g[y][x]`. */
  ghost predicate Rect<T>(g: seq<seq<T>>, w: nat, h: nat) {
    |g| == h && forall y :: 0 <= y < h ==> |g[y]| == w
  }

  /** getData */
  function Get<T>(g: seq<seq<T>>, p: Vector): T
    requires 0 <= p.y < |g| && 0 <= p.x < |g[p.y]|
  {
    g[p.y][p.x]
  }

  /** setData: the written cell reads back, every other cell and the shape are kept. */
  function Set<T>(g: seq<seq<T>>, p: Vector, v: T): (r: seq<seq<T>>)
    requires 0 <= p.y < |g| && 0 <= p.x < |g[p.y]|
    ensures |r| == |g| && forall y :: 0 <= y < |g| ==> |r[y]| == |g[y]|
    ensures forall y, x :: 0 <= y < |r| && 0 <= x < |r[y]| ==>
      r[y][x] == (if y == p.y && x == p.x then v else g[y][x])
  {
    g[p.y := g[p.y][p.x := v]]
  }

  /** Cell `q` is on the grid and holds `v`. */
  predicate Holds<T(==)>(g: seq<seq<T>>, q: Vector, v: T) {
    0 <= q.y < |g| && 0 <= q.x < |g[q.y]| && Get(g, q) == v
  }

  function Abs(n: int): nat { if n < 0 then -n else n }

  /** The cells are one step apart, across or down. */
  predicate Adjacent(p: Vector, q: Vector) {
    Abs(p.x - q.x) + Abs(p.y - q.y) == 1
  }

  /** The number of in-bounds cells from `p` (included) to the edge, walking along `d`. */
  function Reach(w: int, h: int, p: Vector, d: Dir): nat {
    if !InBounds(w, h, p) then 0
    else match d
      case Right => w - p.x
      case Left => p.x + 1
      case Down => h - p.y
      case Up => p.y + 1
  }

  /** The cell `i` steps from `p` along `d`. */
  function Ahead(p: Vector, d: Dir, i: int): Vector {
    match d
    case Right => Vector(p.x + i, p.y)
    case Up => Vector(p.x, p.y - i)
    case Left => Vector(p.x - i, p.y)
    case Down => Vector(p.x, p.y + i)
  }

  /** How many steps along `d` take `p` to `q`, when `q` lies on the line through `p`. */
  function Offset(q: Vector, p: Vector, d: Dir): int {
    match d
    case Right => q.x - p.x
    case Up => p.y - q.y
    case Left => p.x - q.x
    case Down => q.y - p.y
  }

  predicate OnLine(q: Vector, p: Vector, d: Dir) {
    match d
    case Right => q.y == p.y
    case Left => q.y == p.y
    case Up => q.x == p.x
    case Down => q.x == p.x
  }

  /** `q` is one of the `k` cells starting at `p` along `d`. */
  predicate InSegment(q: Vector, p: Vector, d: Dir, k: int) {
    OnLine(q, p, d) && 0 <= Offset(q, p, d) < k
  }

  /**
   * The number of consecutive empty in-bounds cells from `p` along `d`:
   * how far a beam entering at `p` runs before it meets an object or the edge.
   */
  ghost function FreeRun<T>(g: seq<seq<Option<T>>>, w: nat, h: nat, p: Vector, d: Dir): (k: nat)
    requires Rect(g, w, h)
    ensures k <= Reach(w, h, p, d)
    decreases Reach(w, h, p, d)
  {
    if !InBounds(w, h, p) || Get(g, p).Some? then 0
    else 1 + FreeRun(g, w, h, Step(p, d), d)
  }

  /** The run is empty and in bounds, and the cell right after it is off the grid or taken. */
  lemma {:induction false} FreeRunCells<T>(g: seq<seq<Option<T>>>, w: nat, h: nat, p: Vector, d: Dir)
    requires Rect(g, w, h)
    ensures forall i :: 0 <= i < FreeRun(g, w, h, p, d) ==>
      InBounds(w, h, Ahead(p, d, i)) && Get(g, Ahead(p, d, i)).None?
    ensures var k := FreeRun(g, w, h, p, d);
      !InBounds(w, h, Ahead(p, d, k)) || Get(g, Ahead(p, d, k)).Some?
    decreases Reach(w, h, p, d)
  {
    if InBounds(w, h, p) && Get(g, p).None? {
      FreeRunCells(g, w, h, Step(p, d), d);
      forall i | 0 <= i < FreeRun(g, w, h, p, d)
        ensures InBounds(w, h, Ahead(p, d, i)) && Get(g, Ahead(p, d, i)).None?
      {
        if i > 0 {
          assert Ahead(p, d, i) == Ahead(Step(p, d), d, i - 1);
        }
      }
      assert Ahead(p, d, FreeRun(g, w, h, p, d)) == Ahead(Step(p, d), d, FreeRun(g, w, h, Step(p, d), d));
    }
  }

  /** Writing a cell that is not on the ray from `p` leaves the run from `p` unchanged. */
  lemma {:induction false} FreeRunSetOff<T>(g: seq<seq<Option<T>>>, w: nat, h: nat, p: Vector, d: Dir,
                                            q: Vector, v: Option<T>)
    requires Rect(g, w, h) && InBounds(w, h, q)
    requires !(OnLine(q, p, d) && Offset(q, p, d) >= 0)
    ensures Rect(Set(g, q, v), w, h)
    ensures FreeRun(Set(g, q, v), w, h, p, d) == FreeRun(g, w, h, p, d)
    decreases Reach(w, h, p, d)
  {
    if InBounds(w, h, p) {
      FreeRunSetOff(g, w, h, Step(p, d), d, q, v);
    }
  }

  /** The grid after a beam of `k` new objects, numbered from `base`, fills the cells from `p`. */
  ghost function Paint(g: seq<seq<Option<nat>>>, w: nat, h: nat, p: Vector, d: Dir, base: nat, k: nat)
    : (r: seq<seq<Option<nat>>>)
    requires Rect(g, w, h)
    ensures Rect(r, w, h)
    decreases k
  {
    if k == 0 || !InBounds(w, h, p) then g
    else Paint(Set(g, p, Some(base)), w, h, Step(p, d), d, base + 1, k - 1)
  }

  /** A painted segment holds the ids `base`, `base + 1`, ... in order; other cells are kept. */
  lemma {:induction false} PaintCell(g: seq<seq<Option<nat>>>, w: nat, h: nat, p: Vector, d: Dir,
                                     base: nat, k: nat, q: Vector)
    requires Rect(g, w, h) && k <= Reach(w, h, p, d) && InBounds(w, h, q)
    ensures Get(Paint(g, w, h, p, d, base, k), q) ==
      (if InSegment(q, p, d, k) then Some(base + Offset(q, p, d)) else Get(g, q))
    decreases k
  {
    if k > 0 {
      PaintCell(Set(g, p, Some(base)), w, h, Step(p, d), d, base + 1, k - 1, q);
      if q != p {
        assert InSegment(q, p, d, k) <==> InSegment(q, Step(p, d), d, k - 1);
      }
    }
  }
}
