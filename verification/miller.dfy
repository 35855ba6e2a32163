// mod-vcmiller/game.js: the maze game on a 21 x 21 grid with a monster that
// chases the actor at half its pace, arrow-key movement, a pulsing animation on
// the gold and a restart key.

module Miller {
  import opened Board
  import opened MazeMap

  const Width := 21
  const Height := 21

  /** Cell codes of the map data. */
  const Wall := 0
  const Floor := 1
  const Gold := 2

  /** Where init puts the actor and the monster, and where the exit is. */
  const ActorStart := Vector(1, 1)
  const MonsterStart := Vector(10, 1)
  const ExitCell := Vector(19, 19)

  /** Where the cell `p` sits in the row-major map data. */
  function Index(p: Vector): int {
    p.y * Height + p.x
  }

  /**
   * What reading the map data at `p` gives: the cell's code, or None (JavaScript's
   * `undefined`) when the index falls outside the array.
   */
  function CellAt(data: seq<int>, p: Vector): (r: Option<int>)
    ensures r.Some? <==> 0 <= Index(p) < |data|
    ensures r.Some? ==> r.value == data[Index(p)]
  {
    var k := Index(p);
    if 0 <= k < |data| then Some(data[k]) else None
  }

  /**
   * movePlayer's guard, kept as written: x and y are both compared with the width
   * and with `>`, so x = 21 and y = 21 pass it.
   */
  predicate OffLimits(n: Vector) {
    n.x < 0 || n.x > Width || n.y < 0 || n.y > Width
  }

  /** movePlayer refuses the target: off limits, or a wall. */
  predicate Blocked(data: seq<int>, n: Vector) {
    OffLimits(n) || CellAt(data, n) == Some(Wall)
  }

  /** A blocked target is either a wall inside the array or off limits; every other target is taken. */
  lemma BlockedCases(data: seq<int>, n: Vector)
    requires |data| == Width * Height
    ensures !Blocked(data, n) ==> 0 <= n.x <= Width && 0 <= n.y <= Width
    ensures !Blocked(data, n) && n.y < Height && n.x < Width ==> data[Index(n)] != Wall
    ensures Blocked(data, n) <==> OffLimits(n) || (0 <= Index(n) < |data| && data[Index(n)] == Wall)
  {
  }

  /**
   * The scale updateGold gives the gold cells at tick `time`:
   * `Math.abs(time * 10 % 80 - 40) + 50`, a pulse between 50 and 90 percent.
   */
  function GoldScale(time: nat): (s: int)
    ensures 50 <= s <= 90
  {
    var w := time * 10 % 80 - 40;
    (if w < 0 then -w else w) + 50
  }

  /** The pulse repeats every eight ticks and swings through both ends of its range. */
  lemma GoldScalePulse(time: nat)
    ensures GoldScale(time + 8) == GoldScale(time)
    ensures time % 8 == 0 ==> GoldScale(time) == 90
    ensures time % 8 == 4 ==> GoldScale(time) == 50
  {
    assert (time + 8) * 10 == time * 10 + 80;
    assert time * 10 % 80 == time % 8 * 10;
  }

  /** The keys keyDown reacts to. */
  datatype Key = Space | ArrowLeft | ArrowRight | ArrowUp | ArrowDown | OtherKey

  /** The target of an arrow key from `p`; None for any other key. */
  function ArrowTarget(key: Key, p: Vector): (r: Option<Vector>)
    ensures r.Some? <==> key in {ArrowLeft, ArrowRight, ArrowUp, ArrowDown}
    ensures key == ArrowLeft ==> r == Some(Vector(p.x - 1, p.y))
    ensures key == ArrowRight ==> r == Some(Vector(p.x + 1, p.y))
    ensures key == ArrowUp ==> r == Some(Vector(p.x, p.y - 1))
    ensures key == ArrowDown ==> r == Some(Vector(p.x, p.y + 1))
  {
    match key
    case ArrowLeft => Some(Step(p, Left))
    case ArrowRight => Some(Step(p, Right))
    case ArrowUp => Some(Step(p, Up))
    case ArrowDown => Some(Step(p, Down))
    case _ => None
  }

  /** The game state kept by the source's closure. */
  class Game {
    /** The map as shipped; init copies it, so play never changes it. */
    const initialData: seq<int>
    /** The map in play; gold cells turn to floor as they are collected. */
    var data: seq<int>
    var goldCount: nat
    var goldFound: nat
    /** Set when the game ends, by escaping or by being caught. */
    var won: bool
    var actor: Vector
    var monster: Vector
    var exitReady: bool
    /** The route from the pathfinder, and the index of its next point. */
    var path: Option<seq<Vector>>
    var step: nat
    /** Ticks since init, which drive the gold animation. */
    var time: nat
    var playerMoves: nat
    /** The movement timer runs. */
    var timer: bool
    /** The last init ran to the end. */
    ghost var ready: bool

    /** The exit is open exactly when some gold was found and none is left to find. */
    ghost predicate ExitMatches()
      reads this`exitReady, this`goldFound, this`goldCount
    {
      exitReady <==> 0 < goldFound && goldCount <= goldFound
    }

    /** The map has its size and the route its next point. */
    ghost predicate Shaped()
      reads this`data, this`path, this`step
    {
      |initialData| == |data| == Width * Height
      && (path.Some? ==> 0 < |path.value| && step < |path.value|)
    }

    ghost predicate Valid()
      reads this
    {
      Shaped()
      && (ready ==> goldFound + Count(data, Gold) == goldCount && ExitMatches())
      && (timer <==> ready && !won)
    }

    /** The state a successful init leaves. */
    ghost predicate Started()
      reads this
    {
      actor == ActorStart && monster == MonsterStart && data == initialData && !won
      && goldCount == Count(initialData, Gold) && goldFound == 0
      && path.None? && step == 0 && time == 0 && playerMoves == 0 && timer
    }

    /** init refuses a map whose actor or exit position is not plain floor. */
    ghost predicate Accepted()
      requires |initialData| == Width * Height
    {
      initialData[Index(ActorStart)] == Floor && initialData[Index(ExitCell)] == Floor
    }

    /** The declarations followed by init. */
    constructor (initial: seq<int>)
      requires |initial| == Width * Height
      ensures Valid() && initialData == initial
      ensures ready == Accepted()
      ensures ready ==> Started() && !exitReady
    {
      initialData := initial;
      data := initial;
      won, exitReady := false, false;
      actor, monster := ActorStart, MonsterStart;
      goldCount, goldFound := 0, 0;
      path, step, time, playerMoves := None, 0, 0, 0;
      timer, ready := false, false;
      new;
      Init();
    }

    /**
     * init, with the exit closed again: restore the start positions and a fresh
     * copy of the map, check the actor's and the exit's cells, count the gold
     * and start the timer. Its callers (start-up and the restart key) call it
     * with the timer stopped.
     */
    method Init()
      requires Shaped() && !timer
      modifies this`data, this`goldCount, this`goldFound, this`won, this`actor, this`monster,
               this`exitReady, this`path, this`step, this`time, this`playerMoves, this`timer, this`ready
      ensures Valid()
      ensures ready == Accepted()
      ensures ready ==> Started() && !exitReady
      ensures !ready ==> actor == ActorStart && monster == MonsterStart && data == initialData
                         && !won && !timer
    {
      Reset();
      if data[Index(ActorStart)] != Floor || data[Index(ExitCell)] != Floor {
        return;
      }
      Begin();
      exitReady := false;
    }

    /**
     * init exactly as the source writes it: `_exit_ready` is left as it was, so
     * after a restart from a game whose exit had opened, the new game begins with
     * the exit open and no gold found.
     */
    method InitAsWritten()
      requires Shaped() && !timer
      modifies this`data, this`goldCount, this`goldFound, this`won, this`actor, this`monster,
               this`path, this`step, this`time, this`playerMoves, this`timer, this`ready
      ensures exitReady == old(exitReady)
      ensures ready == Accepted()
      ensures ready ==> Started()
      ensures ready && old(exitReady) ==> exitReady && goldFound == 0 && !ExitMatches()
    {
      Reset();
      if data[Index(ActorStart)] != Floor || data[Index(ExitCell)] != Floor {
        return;
      }
      Begin();
    }

    /** The first part of init: start positions, a fresh copy of the map, the game not over. */
    method Reset()
      requires Shaped()
      modifies this`data, this`won, this`actor, this`monster, this`ready
      ensures Shaped() && !ready
      ensures actor == ActorStart && monster == MonsterStart && data == initialData && !won
    {
      actor, monster := ActorStart, MonsterStart;
      data := initialData;
      won := false;
      ready := false;
    }

    /** The rest of init once the actor's and the exit's cells are floor: count the gold, start the timer. */
    method Begin()
      requires Shaped() && data == initialData && !won
      requires actor == ActorStart && monster == MonsterStart
      modifies this`goldCount, this`goldFound, this`path, this`step, this`time, this`playerMoves,
               this`timer, this`ready
      ensures Started() && ready
      ensures goldFound + Count(data, Gold) == goldCount
    {
      goldCount := CountCells(data, Width, Gold);
      goldFound := 0;
      path, step := None, 0;
      timer := true;
      time, playerMoves := 0, 0;
      ready := true;
    }

    /**
     * The effect of arriving at the free cell `n`: the actor takes the gold there,
     * the exit opening once none is left, or escapes through the open exit,
     * which ends the game and stops the timer.
     */
    twostate predicate Collected(n: Vector)
      reads this
    {
      var k := Index(n);
      var gold := CellAt(old(data), n) == Some(Gold);
      var escaped := !gold && old(exitReady) && n == ExitCell;
      && won == (old(won) || escaped)
      && timer == (old(timer) && !escaped)
      && (gold ==> 0 <= k < |old(data)| && data == old(data)[k := Floor]
                   && goldFound == old(goldFound) + 1
                   && exitReady == (old(exitReady) || goldCount <= goldFound))
      && (!gold ==> data == old(data) && goldFound == old(goldFound) && exitReady == old(exitReady))
    }

    /**
     * The effect of movePlayer to the unblocked cell `n`, given the pathfinder's
     * route `mp` for the monster: on an even move count the monster takes the
     * first step of its route; the actor moves; meeting the monster, before or
     * after the actor's move, ends the game and stops the timer; otherwise the
     * actor collects what is on its cell.
     */
    twostate predicate Stepped(n: Vector, mp: seq<Vector>)
      reads this
    {
      var caught := monster == old(actor) || monster == n;
      && monster == (if old(playerMoves) % 2 == 0 && |mp| > 0 then mp[0] else old(monster))
      && actor == n && playerMoves == old(playerMoves) + 1
      && (old(won) || caught ==>
            won && timer == (old(timer) && !caught)
            && data == old(data) && goldFound == old(goldFound) && exitReady == old(exitReady))
      && (!old(won) && !caught ==> Collected(n))
    }

    /** movePlayer: a blocked target changes nothing; otherwise the move takes effect. */
    method MovePlayer(n: Vector, mp: seq<Vector>)
      requires Valid()
      modifies this`monster, this`actor, this`playerMoves, this`won, this`timer, this`data,
               this`goldFound, this`exitReady
      ensures Valid()
      ensures Blocked(old(data), n) ==> unchanged(this)
      ensures !Blocked(old(data), n) ==> Stepped(n, mp)
    {
      if OffLimits(n) {
        return;
      }
      if CellAt(data, n) == Some(Wall) {
        return;
      }
      UpdateMonster(mp);
      CheckMonsterCollision();
      actor := n;
      playerMoves := playerMoves + 1;
      CheckMonsterCollision();
      if won {
        return;
      }
      Collect();
    }

    /** The actor, still in the game, has arrived at a cell: collect what is there. */
    method Collect()
      requires Valid() && !won
      modifies this`won, this`timer, this`data, this`goldFound, this`exitReady
      ensures Valid()
      ensures Collected(actor)
    {
      var k := Index(actor);
      if CellAt(data, actor) == Some(Gold) {
        CountTake(data, k, Floor, Gold);
        data := data[k := Floor];
        goldFound := goldFound + 1;
        if goldFound >= goldCount {
          exitReady := true;
        }
      } else if exitReady && actor == ExitCell {
        timer := false;
        won := true;
      }
    }

    /**
     * updateMonster, with the pathfinder's route from the monster to the actor as
     * `mp`: the monster moves on even move counts only, to the route's first point.
     */
    method UpdateMonster(mp: seq<Vector>)
      modifies this`monster
      ensures monster == (if playerMoves % 2 == 0 && |mp| > 0 then mp[0] else old(monster))
    {
      if playerMoves % 2 == 0 && |mp| > 0 {
        monster := mp[0];
      }
    }

    /** checkMonsterCollision: the monster on the actor's cell ends the game and stops the timer. */
    method CheckMonsterCollision()
      modifies this`won, this`timer
      ensures monster == actor ==> won && !timer
      ensures monster != actor ==> won == old(won) && timer == old(timer)
    {
      if monster == actor {
        timer := false;
        won := true;
      }
    }

    /**
     * _tick: advance the gold animation, then take the next step of the route:
     * drop it when the actor already stands on its next point, otherwise move
     * there and advance, dropping the route when it runs out.
     */
    method Tick(mp: seq<Vector>)
      requires Valid() && timer
      modifies this`monster, this`actor, this`playerMoves, this`won, this`timer, this`data,
               this`goldFound, this`exitReady, this`path, this`step, this`time
      ensures Valid() && time == old(time) + 1
      ensures old(path).None? ==>
        unchanged(this`monster, this`actor, this`playerMoves, this`won, this`timer, this`data,
                  this`goldFound, this`exitReady, this`path, this`step)
      ensures old(path).Some? && old(actor) == old(path.value[step]) ==>
        path.None? &&
        unchanged(this`monster, this`actor, this`playerMoves, this`won, this`timer, this`data,
                  this`goldFound, this`exitReady, this`step)
      ensures old(path).Some? && old(actor) != old(path.value[step]) ==>
        var ps, n := old(path.value), old(path.value[step]);
        && (Blocked(old(data), n) ==>
              unchanged(this`monster, this`actor, this`playerMoves, this`won, this`timer,
                        this`data, this`goldFound, this`exitReady))
        && (!Blocked(old(data), n) ==> Stepped(n, mp))
        && step == old(step) + 1 && path == (if step >= |ps| then None else Some(ps))
    {
      time := time + 1;
      if path.None? || won {
        return;
      }
      var ps := path.value;
      var n := ps[step];
      if actor == n {
        path := None;
        return;
      }
      MovePlayer(n, mp);
      step := step + 1;
      if step >= |ps| {
        path := None;
      }
    }

    /**
     * move: unless the game is over, follow the pathfinder's route `line` to the
     * touched cell when it is not empty.
     */
    method Move(line: seq<Vector>)
      requires Valid()
      modifies this`path, this`step
      ensures Valid()
      ensures old(won) || |line| == 0 ==> path == old(path) && step == old(step)
      ensures !old(won) && |line| > 0 ==> path == Some(line) && step == 0
    {
      if won {
        return;
      }
      if |line| > 0 {
        path, step := Some(line), 0;
      }
    }

    /**
     * keyDown: space restarts the game (stopping the timer first unless the game
     * is over); once the game is over nothing else reacts; an arrow key drops the
     * route and moves the actor one cell.
     */
    method KeyDown(key: Key, mp: seq<Vector>)
      requires Valid()
      modifies this`data, this`goldCount, this`goldFound, this`won, this`actor, this`monster,
               this`exitReady, this`path, this`step, this`time, this`playerMoves, this`timer, this`ready
      ensures Valid()
      ensures key == Space ==> ready == Accepted() && (ready ==> Started() && !exitReady)
      ensures key == Space && !ready ==> !timer
      ensures key != Space && (old(won) || key == OtherKey) ==> unchanged(this)
      ensures key != Space && !old(won) && key != OtherKey ==>
        var n := ArrowTarget(key, old(actor)).value;
        && path.None? && step == old(step)
        && unchanged(this`goldCount, this`time, this`ready)
        && (Blocked(old(data), n) ==>
              unchanged(this`monster, this`actor, this`playerMoves, this`won, this`timer,
                        this`data, this`goldFound, this`exitReady))
        && (!Blocked(old(data), n) ==> Stepped(n, mp))
    {
      if key == Space {
        if !won {
          timer := false;
        }
        Init();
        return;
      }
      if won {
        return;
      }
      var target := ArrowTarget(key, actor);
      if target.Some? {
        path := None;
        MovePlayer(target.value, mp);
      }
    }
  }
}
