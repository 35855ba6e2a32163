// samplegame2/game.js: an actor walks pathfinder routes through a 23 x 23 maze,
// collecting gold until the exit opens, while the picture of the maze turns a
// quarter about its centre cell every fifth step.

module Sample {
  import opened Board
  import opened MazeMap

  const Width := 23
  const Height := 23

  /** Cell codes of the map data. */
  const MapWall := 0
  const MapFloor := 1
  const MapGold := 2
  const MapActor := 3
  const MapExit := 4

  /** The most gold pieces a map may hold. */
  const GoldMax := 10

  /** Where the cell `p` sits in the row-major map data (the source strides by the height). */
  function Index(p: Vector): int {
    p.y * Height + p.x
  }

  /**
   * The rotation matrices `[a, b, c, d]`, which send `(x, y)` to `(a x + b y, c x + d y)`:
   * a quarter turn more with each entry.
   */
  const Matrices: seq<seq<int>> := [[1, 0, 0, 1], [0, -1, 1, 0], [-1, 0, 0, -1], [0, 1, -1, 0]]

  /** _do_rotate: turn `p` about the centre cell with matrix `rot`; matrix 0 leaves it in place. */
  function DoRotate(p: Vector, rot: nat): (q: Vector)
    requires rot < |Matrices|
    ensures rot == 0 ==> q == p
  {
    var c := Vector(Width / 2, Height / 2);
    var d := p.Minus(c);
    var m := Matrices[rot];
    Vector(d.x * m[0] + d.y * m[1], d.x * m[2] + d.y * m[3]).Plus(c)
  }

  /** The matrix _unrotate uses under rotation `r`: it undoes matrix `r`. */
  function UnrotateMatrix(r: nat): (u: nat)
    requires r < |Matrices|
    ensures u < |Matrices| && (r + u) % 4 == 0
  {
    if r % 2 == 0 then r else (r + 2) % 4
  }

  /** _unrotate: the map cell drawn at position `p` under rotation `r`. */
  function Unrotate(p: Vector, r: nat): Vector
    requires r < |Matrices|
  {
    DoRotate(p, UnrotateMatrix(r))
  }

  /** The quarter turns written out: each sends the centre cell (11, 11) to itself. */
  function Turned(p: Vector, r: nat): Vector {
    var e := 2 * (Width / 2);
    if r == 0 then p
    else if r == 1 then Vector(e - p.y, p.x)
    else if r == 2 then Vector(e - p.x, e - p.y)
    else Vector(p.y, e - p.x)
  }

  /** Each matrix turns the grid by its number of quarter turns. */
  lemma DoRotateTurns(p: Vector, r: nat)
    requires r < |Matrices|
    ensures DoRotate(p, r) == Turned(p, r)
  {
    var d := p.Minus(Vector(Width / 2, Height / 2));
    if r == 0 {
    } else if r == 1 {
      assert d.x * 0 + d.y * -1 == -d.y && d.x * 1 + d.y * 0 == d.x;
    } else if r == 2 {
      assert d.x * -1 + d.y * 0 == -d.x && d.x * 0 + d.y * -1 == -d.y;
    } else {
      assert d.x * 0 + d.y * 1 == d.y && d.x * -1 + d.y * 0 == -d.x;
    }
  }

  /** Quarter turns add up modulo four. */
  lemma TurnedCompose(p: Vector, a: nat, b: nat)
    requires a < 4 && b < 4
    ensures Turned(Turned(p, a), b) == Turned(p, (a + b) % 4)
  {
    if a == 0 {
    } else if a == 1 {
      assert b == 0 || b == 1 || b == 2 || b == 3;
    } else if a == 2 {
      assert b == 0 || b == 1 || b == 2 || b == 3;
    } else {
      assert b == 0 || b == 1 || b == 2 || b == 3;
    }
  }

  /** Turning by matrix `a` and then by matrix `b` is turning by their sum, modulo four. */
  lemma RotateCompose(p: Vector, a: nat, b: nat)
    requires a < |Matrices| && b < |Matrices|
    ensures DoRotate(DoRotate(p, a), b) == DoRotate(p, (a + b) % 4)
  {
    DoRotateTurns(p, a);
    DoRotateTurns(DoRotate(p, a), b);
    DoRotateTurns(p, (a + b) % 4);
    TurnedCompose(p, a, b);
  }

  /** Touching the position where a cell is drawn targets that very cell. */
  lemma UnrotateRotate(p: Vector, r: nat)
    requires r < |Matrices|
    ensures Unrotate(DoRotate(p, r), r) == p
  {
    RotateCompose(p, r, UnrotateMatrix(r));
  }

  /** Every drawn position shows the cell that _unrotate maps it back to. */
  lemma RotateUnrotate(p: Vector, r: nat)
    requires r < |Matrices|
    ensures DoRotate(Unrotate(p, r), r) == p
  {
    RotateCompose(p, UnrotateMatrix(r), r);
  }

  /** Distinct cells are drawn at distinct positions. */
  lemma RotateInjective(p: Vector, q: Vector, r: nat)
    requires r < |Matrices| && DoRotate(p, r) == DoRotate(q, r)
    ensures p == q
  {
    UnrotateRotate(p, r);
    UnrotateRotate(q, r);
  }

  /** On the square map a cell is on the grid exactly when its drawn position is. */
  lemma RotateInBounds(p: Vector, r: nat)
    requires r < |Matrices|
    ensures InBounds(Width, Height, p) <==> InBounds(Width, Height, DoRotate(p, r))
  {
    DoRotateTurns(p, r);
  }

  /** The start-up scan rewrites the actor's and the exit's cells to floor. */
  function Clean(v: int): (r: int)
    ensures r == MapGold <==> v == MapGold
    ensures r != MapActor && r != MapExit
  {
    if v == MapActor || v == MapExit then MapFloor else v
  }

  /**
   * `p` is where the scan of the first `n` cells of `m` put the one cell holding `v`,
   * or has x = -1 when those cells hold none.
   */
  ghost predicate LocatedIn(m: seq<int>, n: nat, v: int, p: Vector)
    requires n <= |m|
  {
    if Count(m[..n], v) == 0 then p.x == -1
    else InBounds(Width, Height, p) && 0 <= Index(p) < n && m[Index(p)] == v
  }

  /** `p` is the cell of `m` holding `v`, or has x = -1 when there is none. */
  ghost predicate Located(m: seq<int>, v: int, p: Vector) {
    LocatedIn(m, |m|, v, p)
  }

  /** The result of the start-up scan: whether it ran to the end, and what it found. */
  datatype Scan = Scan(ok: bool, goldCount: nat, actor: Vector, exit: Vector, data: seq<int>)

  /** The scan has read the first `n` cells of `m` and found no reason to stop. */
  ghost predicate Scanned(m: seq<int>, n: nat, data: seq<int>, gold: nat, actor: Vector, exit: Vector) {
    n <= |m| == |data|
    && gold == Count(m[..n], MapGold) <= GoldMax
    && Count(m[..n], MapActor) <= 1 && Count(m[..n], MapExit) <= 1
    && LocatedIn(m, n, MapActor, actor) && LocatedIn(m, n, MapExit, exit)
    && forall k :: 0 <= k < |m| ==> data[k] == (if k < n then Clean(m[k]) else m[k])
  }

  /** A map the scan refuses: too much gold, or more than one actor or exit. */
  ghost predicate Refused(m: seq<int>) {
    Count(m, MapGold) > GoldMax || Count(m, MapActor) > 1 || Count(m, MapExit) > 1
  }

  /** One cell of the map scan: the cell at (x, y), number `n` in row-major order. */
  method ScanCell(m: seq<int>, x: int, y: int, data: seq<int>, gold: nat, actor: Vector, exit: Vector)
    returns (stop: bool, data': seq<int>, gold': nat, actor': Vector, exit': Vector)
    requires InBounds(Width, Height, Vector(x, y)) && |m| == Width * Height
    requires Scanned(m, Index(Vector(x, y)), data, gold, actor, exit)
    ensures |data'| == |m|
    ensures stop ==> Refused(m)
    ensures !stop ==> Scanned(m, Index(Vector(x, y)) + 1, data', gold', actor', exit')
  {
    var n := Index(Vector(x, y));
    CountNext(m, n, MapGold);
    CountNext(m, n, MapActor);
    CountNext(m, n, MapExit);
    stop, data', gold', actor', exit' := false, data, gold, actor, exit;
    var val := data[n];
    if val == MapGold {
      gold' := gold + 1;
      if gold' > GoldMax {
        CountPrefix(m, n + 1, MapGold);
        stop := true;
      }
    } else if val == MapActor {
      if actor.x >= 0 {
        CountPrefix(m, n + 1, MapActor);
        stop := true;
      } else {
        actor' := Vector(x, y);
        data' := data[n := MapFloor];
      }
    } else if val == MapExit {
      if exit.x >= 0 {
        CountPrefix(m, n + 1, MapExit);
        stop := true;
      } else {
        exit' := Vector(x, y);
        data' := data[n := MapFloor];
      }
    }
  }

  /**
   * The map scan of init: count the gold, find the actor and the exit and turn
   * their cells to floor; stop at once on a gold piece beyond GoldMax, a second
   * actor or a second exit.
   */
  method ScanMap(m: seq<int>) returns (s: Scan)
    requires |m| == Width * Height
    ensures |s.data| == |m|
    ensures s.ok <==> !Refused(m)
    ensures s.ok ==> s.goldCount == Count(m, MapGold) == Count(s.data, MapGold)
    ensures s.ok ==> Located(m, MapActor, s.actor) && Located(m, MapExit, s.exit)
    ensures s.ok ==> forall k :: 0 <= k < |m| ==> s.data[k] == Clean(m[k])
  {
    var data, gold, actor, exit := m, 0, Vector(-1, -1), Vector(-1, -1);
    var y, row := 0, 0;
    while y < Height
      invariant 0 <= y <= Height && row == y * Width
      invariant Scanned(m, row, data, gold, actor, exit)
    {
      var x := 0;
      while x < Width
        invariant 0 <= x <= Width
        invariant Scanned(m, row + x, data, gold, actor, exit)
      {
        var stop;
        stop, data, gold, actor, exit := ScanCell(m, x, y, data, gold, actor, exit);
        if stop {
          return Scan(false, gold, actor, exit, data);
        }
        x := x + 1;
      }
      y, row := y + 1, row + Width;
    }
    assert m[..row] == m;
    CountAgree(m, data, MapGold);
    s := Scan(true, gold, actor, exit, data);
  }

  /** The game state kept by the source's closure. */
  class Maze {
    /** The map data; gold cells turn to floor as they are collected. */
    var data: seq<int>
    var goldCount: nat
    var goldFound: nat
    var won: bool
    var actor: Vector
    var exit: Vector
    var exitReady: bool
    /** The route from the pathfinder, and the index of its next point. */
    var path: Option<seq<Vector>>
    var step: nat
    /** Which rotation matrix the maze is drawn with. */
    var rotation: nat
    var moves: nat
    /** The movement timer runs: started by a complete map scan, stopped on a win. */
    var timer: bool
    /** The map scan of init ran to the end. */
    ghost var ready: bool

    ghost predicate Valid()
      reads this
    {
      |data| == Width * Height && rotation < |Matrices|
      && (path.Some? ==>
            0 < |path.value| && step < |path.value|
            && forall i :: 0 <= i < |path.value| ==> InBounds(Width, Height, path.value[i]))
      && (ready ==> goldFound + Count(data, MapGold) == goldCount)
      && (exitReady <==> 0 < goldFound && goldCount <= goldFound)
      && (won ==> exitReady && actor == exit)
      && (timer ==> ready && !won)
    }

    /**
     * The declarations and init: scan map `m` and start the
     * timer when the scan runs to the end.
     */
    constructor (m: seq<int>)
      requires |m| == Width * Height
      ensures Valid()
      ensures ready <==> !Refused(m)
      ensures timer == ready && rotation == 0 && path.None? && step == 0 && moves == 0
      ensures goldFound == 0 && !won && !exitReady
      ensures ready ==> goldCount == Count(m, MapGold)
      ensures ready ==> Located(m, MapActor, actor) && Located(m, MapExit, exit)
      ensures ready ==> forall k :: 0 <= k < |m| ==> data[k] == Clean(m[k])
    {
      var s := ScanMap(m);
      data, goldCount, actor, exit := s.data, s.goldCount, s.actor, s.exit;
      goldFound, won, exitReady, rotation := 0, false, false, 0;
      path, step, moves := None, 0, 0;
      timer := s.ok;
      ready := s.ok;
    }

    /**
     * _tick: take the next step of the route. The route is dropped when the actor
     * already stands on its next point; otherwise the actor walks there.
     */
    method Tick()
      requires Valid() && timer
      modifies this`data, this`goldFound, this`exitReady, this`won, this`actor, this`path,
               this`step, this`rotation, this`moves, this`timer
      ensures Valid()
      ensures old(path).None? ==> unchanged(this)
      ensures old(path).Some? && old(actor) == old(path.value[step]) ==>
        path.None? && unchanged(this`data, this`goldFound, this`exitReady, this`won, this`actor,
                                this`step, this`rotation, this`moves, this`timer)
      ensures old(path).Some? && old(actor) != old(path.value[step]) ==>
        Walked(old(path.value), old(step))
    {
      if path.None? {
        return;
      }
      if actor == path.value[step] {
        path := None;
        return;
      }
      Walk();
    }

    /**
     * The effect of arriving at cell `k`: the gold there is taken and the exit
     * opens once all gold is found; otherwise reaching the open exit wins and
     * stops the timer.
     */
    twostate predicate Collected(k: int)
      reads this
      requires 0 <= k < |old(data)|
    {
      && (old(data[k]) == MapGold ==>
            data == old(data)[k := MapFloor] && goldFound == old(goldFound) + 1
            && exitReady == (old(exitReady) || goldCount <= goldFound))
      && (old(data[k]) != MapGold ==>
            data == old(data) && goldFound == old(goldFound) && exitReady == old(exitReady))
      && won == (old(data[k]) != MapGold && exitReady && actor == exit)
      && timer == !won
    }

    /**
     * The effect of walking to point `i` of route `ps`: the maze turns a quarter
     * before every fifth step, the actor moves and collects, and unless that won
     * the game the step advances, dropping the route when it runs out.
     */
    twostate predicate Walked(ps: seq<Vector>, i: nat)
      reads this
      requires i < |ps| && InBounds(Width, Height, ps[i]) && |old(data)| == Width * Height
    {
      && actor == ps[i] && moves == old(moves) + 1
      && rotation == (if i % 5 == 0 then (old(rotation) + 1) % 4 else old(rotation))
      && Collected(Index(ps[i]))
      && (won ==> path == old(path) && step == old(step))
      && (!won ==> step == i + 1 && path == (if i + 1 >= |ps| then None else Some(ps)))
    }

    /** The actor walks to the next point of its route, which it does not stand on. */
    method Walk()
      requires Valid() && timer && path.Some? && actor != path.value[step]
      modifies this`data, this`goldFound, this`exitReady, this`won, this`actor, this`path,
               this`step, this`rotation, this`moves, this`timer
      ensures Valid() && old(path).Some?
      ensures Walked(old(path.value), old(step))
    {
      var ps := path.value;
      if step % 5 == 0 {
        rotation := (rotation + 1) % 4;
      }
      actor := ps[step];
      moves := moves + 1;
      Collect();
      if won {
        return;
      }
      step := step + 1;
      if step >= |ps| {
        path := None;
      }
    }

    /** The actor has arrived at a cell: collect what is there. */
    method Collect()
      requires Valid() && timer && InBounds(Width, Height, actor)
      modifies this`data, this`goldFound, this`exitReady, this`won, this`timer
      ensures Valid()
      ensures Collected(Index(actor))
    {
      var k := Index(actor);
      var val := data[k];
      if val == MapGold {
        CountTake(data, k, MapFloor, MapGold);
        data := data[k := MapFloor];
        goldFound := goldFound + 1;
        if goldFound >= goldCount {
          exitReady := true;
        }
      } else if exitReady && actor == exit {
        timer := false;
        won := true;
      }
    }

    /**
     * move: unless the game is won, ask the pathfinder for a route from the actor
     * to the map cell drawn at the touched position, and follow it when it is not
     * empty. `line` is the pathfinder's answer; `target` is the cell asked for.
     */
    method Move(touch: Vector, line: seq<Vector>) returns (target: Option<Vector>)
      requires Valid()
      requires forall i :: 0 <= i < |line| ==> InBounds(Width, Height, line[i])
      modifies this`path, this`step
      ensures Valid()
      ensures old(won) ==> target.None? && path == old(path) && step == old(step)
      ensures !old(won) ==> target == Some(Unrotate(touch, rotation))
      ensures !old(won) && |line| > 0 ==> path == Some(line) && step == 0
      ensures !old(won) && |line| == 0 ==> path == old(path) && step == old(step)
    {
      if won {
        return None;
      }
      target := Some(Unrotate(touch, rotation));
      if |line| > 0 {
        path, step := Some(line), 0;
      }
    }
  }
}
