// Map data shared by the three maze games (samplegame2, mod-vcmiller,
// mod-alsensiba): a maze is a flat row-major array of cell codes, and the
// games count and consume the cells holding gold.

module MazeMap {

  /** The number of cells of `s` holding code `v`. */
  function Count(s: seq<int>, v: int): (n: nat)
    ensures n <= |s|
  {
    if |s| == 0 then 0
    else Count(s[..|s| - 1], v) + (if s[|s| - 1] == v then 1 else 0)
  }

  /** Scanning one more cell adds one to the count exactly when that cell holds `v`. */
  lemma CountNext(s: seq<int>, n: nat, v: int)
    requires n < |s|
    ensures Count(s[..n + 1], v) == Count(s[..n], v) + (if s[n] == v then 1 else 0)
  {
    assert s[..n + 1][..n] == s[..n];
  }

  /** A prefix never holds more cells of a kind than the whole map. */
  lemma {:induction false} CountPrefix(s: seq<int>, n: nat, v: int)
    requires n <= |s|
    ensures Count(s[..n], v) <= Count(s, v)
    decreases |s|
  {
    if n < |s| {
      var t := s[..|s| - 1];
      CountPrefix(t, n, v);
      assert t[..n] == s[..n];
    } else {
      assert s[..n] == s;
    }
  }

  /** Overwriting one cell of kind `v` with another code removes exactly one cell of that kind. */
  lemma {:induction false} CountTake(s: seq<int>, k: nat, u: int, v: int)
    requires k < |s| && s[k] == v && u != v
    ensures Count(s[k := u], v) + 1 == Count(s, v)
    decreases |s|
  {
    var t := s[k := u];
    if k < |s| - 1 {
      CountTake(s[..|s| - 1], k, u, v);
      assert t[..|t| - 1] == s[..|s| - 1][k := u];
    } else {
      assert t[..|t| - 1] == s[..|s| - 1];
    }
  }

  /** Maps that agree on which cells hold `v` hold equally many of them. */
  lemma {:induction false} CountAgree(s: seq<int>, t: seq<int>, v: int)
    requires |s| == |t|
    requires forall k :: 0 <= k < |s| ==> (s[k] == v <==> t[k] == v)
    ensures Count(s, v) == Count(t, v)
    decreases |s|
  {
    if |s| > 0 {
      CountAgree(s[..|s| - 1], t[..|t| - 1], v);
    }
  }

  /** Row `y` of a square map of side `side` starts at `y * side` and ends inside the map. */
  lemma RowInside(y: nat, side: nat)
    requires y < side
    ensures (y + 1) * side == y * side + side <= side * side
  {
  }

  /**
   * The row-major scan `for y < side { for x < side { ... data[y * side + x] ... } }`
   * that the games run at start-up to count the cells of one kind.
   */
  method CountCells(data: seq<int>, side: nat, v: int) returns (n: nat)
    requires |data| == side * side
    ensures n == Count(data, v)
  {
    n := 0;
    var y, row := 0, 0;
    while y < side
      invariant 0 <= y <= side && row == y * side
      invariant row <= |data|
      invariant n == Count(data[..row], v)
    {
      RowInside(y, side);
      var x := 0;
      while x < side
        invariant 0 <= x <= side
        invariant n == Count(data[..row + x], v)
      {
        CountNext(data, row + x, v);
        if data[row + x] == v {
          n := n + 1;
        }
        x := x + 1;
      }
      y, row := y + 1, row + side;
    }
    assert data[..row] == data;
  }
}
