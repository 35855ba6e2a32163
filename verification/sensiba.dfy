// mod-alsensiba/game.js: the maze game on a 21 x 21 grid where each gold piece
// ("orb") plays a note one step higher up a pentatonic scale, the open exit
// flashes, and reaching it plays a three-note chord.

module Sensiba {
  import opened Board
  import opened MazeMap

  const Width := 21
  const Height := 21

  /** Cell codes of the map data. */
  const Wall := 0
  const Floor := 1
  const Gold := 2

  /** Where the actor starts, and where the exit is. */
  const ActorStart := Vector(1, 1)
  const ExitCell := Vector(19, 19)

  /** Bead colours: the floor, the exit, and the actor colour the flashing exit alternates with. */
  const ColorFloor := 0x163d22
  const ColorExit := 0xFFFF00
  const ColorActor := 0xFFFFFF

  /** The semitone offsets of the pentatonic scale within an octave. */
  const ScalePenta: seq<int> := [1, 3, 5, 8, 10]

  /** Where the cell `p` sits in the row-major map data. */
  function Index(p: Vector): int {
    p.y * Height + p.x
  }

  /**
   * The harpsichord note for the `i`-th scale degree,
   * `12 * Math.floor(i / 5) + scalePenta[i % 5] + 12`. JavaScript's `%` keeps the
   * sign of `i`, so a negative `i` that is not a multiple of 5 indexes outside
   * the scale and yields no note (None).
   */
  function Note(i: int): (r: Option<int>)
    ensures r.Some? <==> i >= 0 || i % 5 == 0
    ensures i >= 0 ==> r.value >= 13
  {
    var rem := if i >= 0 then i % 5 else -((-i) % 5);
    if rem >= 0 then Some(12 * (i / 5) + ScalePenta[rem] + 12) else None
  }

  /** One scale degree higher is a higher note. */
  lemma NoteStep(g: nat)
    ensures Note(g).value < Note(g + 1).value
  {
    if g % 5 == 4 {
      assert (g + 1) / 5 == g / 5 + 1 && (g + 1) % 5 == 0;
    } else {
      assert (g + 1) / 5 == g / 5 && (g + 1) % 5 == g % 5 + 1;
    }
  }

  /** The pitch goes up with every gold piece found. */
  lemma {:induction false} NoteIncreasing(g: nat, h: nat)
    requires g < h
    ensures Note(g).value < Note(h).value
    decreases h - g
  {
    NoteStep(g);
    if g + 1 < h {
      NoteIncreasing(g + 1, h);
    }
  }

  /** The chord played at the exit: the notes of the last three gold pieces. */
  function Chord(goldCount: int): (r: seq<Option<int>>)
    ensures |r| == 3
  {
    [Note(goldCount - 3), Note(goldCount - 2), Note(goldCount - 1)]
  }

  /**
   * Every note of the chord exists exactly when the map holds at least three gold
   * pieces; then the chord rises and ends on the note of the last piece.
   */
  lemma ChordDefined(goldCount: nat)
    ensures (forall i :: 0 <= i < 3 ==> Chord(goldCount)[i].Some?) <==> goldCount >= 3
    ensures goldCount >= 3 ==>
      Chord(goldCount)[0].value < Chord(goldCount)[1].value < Chord(goldCount)[2].value
      && Chord(goldCount)[2] == Note(goldCount - 1)
  {
    if goldCount >= 3 {
      NoteStep(goldCount - 3);
      NoteStep(goldCount - 2);
    } else {
      assert !Chord(goldCount)[3 - goldCount - 1].Some?;
    }
  }

  /** _flash: the exit shows the actor colour when it shows the exit colour, and the exit colour otherwise. */
  function Toggle(c: int): (r: int)
    ensures r != c && (r == ColorExit || r == ColorActor)
  {
    if c == ColorExit then ColorActor else ColorExit
  }

  /** Two flashes restore either of the two flash colours. */
  lemma ToggleTwice(c: int)
    requires c == ColorExit || c == ColorActor
    ensures Toggle(Toggle(c)) == c
  {
  }

  /** The game state kept by the source's closure. */
  class Game {
    /** The map; gold cells turn to floor as they are collected. */
    var data: seq<int>
    var goldCount: nat
    var goldFound: nat
    var won: bool
    var actor: Vector
    var exitReady: bool
    /** The route from the pathfinder, and the index of its next point. */
    var path: Option<seq<Vector>>
    var step: nat
    /** The movement timer runs. */
    var timer: bool
    /** How many flash timers have been started. */
    var flashTimers: nat
    /** The colour of the exit's bead. */
    var exitColor: int
    /** init ran to the end. */
    ghost var ready: bool

    ghost predicate Valid()
      reads this
    {
      |data| == Width * Height
      && (path.Some? ==>
            0 < |path.value| && step < |path.value|
            && forall i :: 0 <= i < |path.value| ==> InBounds(Width, Height, path.value[i]))
      && (ready ==> goldFound + Count(data, Gold) == goldCount)
      && (exitReady <==> 0 < goldFound && goldCount <= goldFound)
      && flashTimers == (if exitReady then 1 else 0)
      && (won ==> exitReady && actor == ExitCell)
      && (timer ==> ready && !won)
    }

    /** init refuses a map whose actor or exit position is not plain floor. */
    ghost predicate Accepted()
      reads this`data, this`actor
      requires |data| == Width * Height && InBounds(Width, Height, actor)
    {
      data[Index(actor)] == Floor && data[Index(ExitCell)] == Floor
    }

    /** The declarations followed by init, on map `m`. */
    constructor (m: seq<int>)
      requires |m| == Width * Height
      ensures Valid() && data == m && actor == ActorStart
      ensures ready == Accepted()
      ensures ready ==> goldCount == Count(m, Gold) && goldFound == 0 && timer
      ensures path.None? && !won && !exitReady && flashTimers == 0
    {
      data := m;
      actor := ActorStart;
      won, exitReady := false, false;
      goldCount, goldFound := 0, 0;
      path, step := None, 0;
      timer, flashTimers, exitColor := false, 0, ColorFloor;
      ready := false;
      new;
      Init();
    }

    /**
     * init, run once on the declared state: check that the actor and the exit
     * stand on floor, colour the map, count the gold and start the timer.
     */
    method Init()
      requires |data| == Width * Height && InBounds(Width, Height, actor)
      requires path.None? && !timer && !won && !exitReady && flashTimers == 0 && goldFound == 0 && !ready
      modifies this`goldCount, this`goldFound, this`path, this`step, this`timer, this`exitColor, this`ready
      ensures Valid() && data == old(data) && actor == old(actor)
      ensures ready == Accepted()
      ensures ready ==> goldCount == Count(data, Gold) && goldFound == 0 && timer
                        && exitColor == ColorFloor
      ensures path.None?
    {
      if data[Index(actor)] != Floor || data[Index(ExitCell)] != Floor {
        return;
      }
      goldCount := CountCells(data, Width, Gold);
      goldFound := 0;
      exitColor := ColorFloor;
      path, step := None, 0;
      timer := true;
      ready := true;
    }

    /**
     * The effect of the actor arriving at cell `k` in the map: the gold there is
     * taken and its note played, the exit opening (and its flash timer starting,
     * the first time) once all gold is found; otherwise reaching the open exit
     * plays the chord, wins and stops the timer.
     */
    twostate predicate Collected(k: int, new notes: seq<Option<int>>)
      reads this
      requires 0 <= k < |old(data)|
    {
      && (old(data[k]) == Gold ==>
            data == old(data)[k := Floor] && goldFound == old(goldFound) + 1
            && exitReady == (old(exitReady) || goldCount <= goldFound)
            && flashTimers == old(flashTimers) + (if exitReady && !old(exitReady) then 1 else 0)
            && notes == [Note(goldFound)])
      && (old(data[k]) != Gold ==>
            data == old(data) && goldFound == old(goldFound) && exitReady == old(exitReady)
            && flashTimers == old(flashTimers)
            && notes == (if won then Chord(goldCount) else []))
      && won == (old(data[k]) != Gold && exitReady && actor == ExitCell)
      && timer == !won
    }

    /**
     * _tick: take the next step of the route, returning the notes it plays. The
     * route is dropped when the actor already stands on its next point; otherwise
     * the actor moves there and collects, and unless that won the game the step
     * advances, dropping the route when it runs out.
     */
    method Tick() returns (notes: seq<Option<int>>)
      requires Valid() && timer
      modifies this`data, this`goldFound, this`exitReady, this`won, this`actor, this`path,
               this`step, this`timer, this`flashTimers
      ensures Valid()
      ensures old(path).None? ==> unchanged(this) && notes == []
      ensures old(path).Some? && old(actor) == old(path.value[step]) ==>
        path.None? && notes == [] &&
        unchanged(this`data, this`goldFound, this`exitReady, this`won, this`actor,
                  this`step, this`timer, this`flashTimers)
      ensures old(path).Some? && old(actor) != old(path.value[step]) ==>
        var ps, p := old(path.value), old(path.value[step]);
        && actor == p && Collected(Index(p), notes)
        && (won ==> path == old(path) && step == old(step))
        && (!won ==> step == old(step) + 1 && path == (if step >= |ps| then None else Some(ps)))
    {
      notes := [];
      if path.None? {
        return;
      }
      var ps := path.value;
      var p := ps[step];
      if actor == p {
        path := None;
        return;
      }
      actor := p;
      notes := Collect();
      if won {
        return;
      }
      step := step + 1;
      if step >= |ps| {
        path := None;
      }
    }

    /** The actor has arrived at a cell: collect what is there. */
    method Collect() returns (notes: seq<Option<int>>)
      requires Valid() && timer && InBounds(Width, Height, actor)
      modifies this`data, this`goldFound, this`exitReady, this`won, this`timer, this`flashTimers
      ensures Valid()
      ensures Collected(Index(actor), notes)
    {
      notes := [];
      var k := Index(actor);
      if data[k] == Gold {
        CountTake(data, k, Floor, Gold);
        data := data[k := Floor];
        goldFound := goldFound + 1;
        if goldFound >= goldCount {
          if !exitReady {
            flashTimers := flashTimers + 1;
          }
          exitReady := true;
        }
        notes := [Note(goldFound)];
      } else if exitReady && actor == ExitCell {
        timer := false;
        notes := Chord(goldCount);
        won := true;
      }
    }

    /** The flash timer's callback: toggle the exit's colour. */
    method Flash()
      requires exitReady
      modifies this`exitColor
      ensures exitColor == Toggle(old(exitColor))
    {
      if exitColor == ColorExit {
        exitColor := ColorActor;
      } else {
        exitColor := ColorExit;
      }
    }

    /**
     * move: unless the game is won, follow the pathfinder's route `line` to the
     * touched cell when it is not empty.
     */
    method Move(line: seq<Vector>)
      requires Valid()
      requires forall i :: 0 <= i < |line| ==> InBounds(Width, Height, line[i])
      modifies this`path, this`step
      ensures Valid()
      ensures old(won) || |line| == 0 ==> path == old(path) && step == old(step)
      ensures !old(won) && |line| > 0 ==> path == Some(line) && step == 0
    {
      if won {
        return;
      }
      if |line| > 0 {
        path, step := Some(line), 0;
      }
    }
  }
}
