// The laser puzzle of casual-critique: a grid of blocks, boulders, emitters,
// mirrors and laser segments. Emitters and lit mirrors grow beams of laser
// segments; a beam that strikes a block of its own colour makes it fade and
// vanish; the level is won when every block is gone.
//
// Objects live in an arena `objs` indexed by id; a grid cell holds the id of
// the object standing on it. A beam source's `child` is its first segment and
// its `hitting` is the object its beam last struck.

module Critique {
  import opened Board

  const LaserTime := 30
  const FadeTime := 15
  const LevelAdvanceTime := 60

  // Level codes, numbered in the order the source declares them.
  const CLR := 0
  const RBL := 1
  const BBL := 3
  const RER := 4
  const BED := 15
  const RMR := 16
  const BMD := 27
  const BLD := 31

  /** What a level code places on a cell. */
  datatype Spec =
    | Empty
    | BlockAt(color: int)
    | EmitterAt(dir: Dir, color: int)
    | MirrorAt(dir: Dir, color: int)
    | BoulderAt

  /** The code arithmetic of loadObject. Codes 28 to 30 (bomb, dog, splitter) and codes past 31 place nothing. */
  function Decode(code: nat): Spec {
    if code == CLR then Empty
    else if code <= BBL then BlockAt(code - RBL)
    else if code <= BMD then
      var i := code - RER;
      if code <= BED then EmitterAt(Dirs[i % 4], (i % 12) / 4)
      else MirrorAt(Dirs[i % 4], (i % 12) / 4)
    else if code == BLD then BoulderAt
    else Empty
  }

  predicate Encodable(s: Spec) {
    match s
    case BlockAt(c) => 0 <= c < 3
    case EmitterAt(_, c) => 0 <= c < 3
    case MirrorAt(_, c) => 0 <= c < 3
    case _ => true
  }

  /** The level code that places `s`: colour-major, then direction, as the code table is laid out. */
  function Encode(s: Spec): nat
    requires Encodable(s)
  {
    match s
    case Empty => CLR
    case BlockAt(c) => RBL + c
    case EmitterAt(d, c) => RER + 4 * c + DirIndex(d)
    case MirrorAt(d, c) => RMR + 4 * c + DirIndex(d)
    case BoulderAt => BLD
  }

  /** Every placeable thing survives encoding then decoding. */
  lemma DecodeEncode(s: Spec)
    requires Encodable(s)
    ensures Decode(Encode(s)) == s
  {
  }

  /** Every code of the table (0 to 27, and 31) is the encoding of what it decodes to. */
  lemma EncodeDecode(code: nat)
    requires code <= BMD || code == BLD
    ensures Encodable(Decode(code)) && Encode(Decode(code)) == code
  {
    if RER <= code <= BMD {
      var i := code - RER;
      assert i == 4 * ((i % 12) / 4) + i % 4 + 12 * (i / 12);
      assert DirIndex(Dirs[i % 4]) == i % 4;
    }
  }

  /** Codes that name no object of this variant decode to an empty cell. */
  lemma UnknownCodesEmpty(code: nat)
    requires code == CLR || BMD < code != BLD
    ensures Decode(code) == Empty
  {
  }

  datatype Role = Laser(creationTime: int) | Emitter | Mirror(hitTime: int)

  datatype Kind =
    | Block(color: int, fadeStart: int)
    | Boulder
    | LaserObject(role: Role, dir: Dir, color: int, child: Option<nat>, hitting: Option<nat>)

  datatype Obj = Obj(pos: Vector, hasGravity: bool, destroyed: bool, kind: Kind)

  /** A freshly constructed object for a level cell. */
  function Spawn(s: Spec, pos: Vector): Obj
    requires s != Empty
  {
    match s
    case BlockAt(c) => Obj(pos, true, false, Block(c, -1))
    case EmitterAt(d, c) => Obj(pos, true, false, LaserObject(Emitter, d, c, None, None))
    case MirrorAt(d, c) => Obj(pos, true, false, LaserObject(Mirror(-1), d, c, None, None))
    case BoulderAt => Obj(pos, true, false, Boulder)
  }

  /** A new laser segment, created at `time`; segments do not fall. */
  function NewLaser(pos: Vector, d: Dir, color: int, time: int): Obj {
    Obj(pos, false, false, LaserObject(Laser(time), d, color, None, None))
  }

  predicate IsLaser(o: Obj) { o.kind.LaserObject? && o.kind.role.Laser? }
  predicate IsMirror(o: Obj) { o.kind.LaserObject? && o.kind.role.Mirror? }
  predicate Fading(o: Obj) requires o.kind.Block? { o.kind.fadeStart >= 0 }
  predicate Lit(o: Obj) requires IsMirror(o) { o.kind.role.hitTime >= 0 }

  /** swappable: laser segments, boulders and fading blocks stay put. */
  predicate Swappable(o: Obj) {
    match o.kind
    case Block(_, fadeStart) => fadeStart < 0
    case Boulder => false
    case LaserObject(role, _, _, _, _) => !role.Laser?
  }

  /** Two views of one object that agree on where it is, whether it exists and what the grid and links can see. */
  predicate SameFrame(a: Obj, b: Obj) {
    a.pos == b.pos && a.destroyed == b.destroyed && IsLaser(a) == IsLaser(b)
    && a.kind.LaserObject? == b.kind.LaserObject?
    && (a.kind.LaserObject? ==> a.kind.child == b.kind.child && a.kind.hitting == b.kind.hitting)
  }

  /** onHit: a block of the beam's colour starts to fade and stops falling; a dark mirror lights up. */
  function Hit(o: Obj, byColor: int, time: int): (r: Obj)
    ensures SameFrame(o, r)
    ensures o.kind.Block? ==> r.kind.Block? && r.kind.color == o.kind.color
    ensures o.kind.Block? && time >= 0 ==> (Fading(r) <==> Fading(o) || byColor == o.kind.color)
    ensures o.kind.Block? ==> r.hasGravity == (o.hasGravity && (Fading(o) || byColor != o.kind.color))
    ensures IsMirror(o) ==> IsMirror(r) && (time >= 0 ==> Lit(r))
    ensures IsMirror(o) ==> r.kind.dir == o.kind.dir && r.kind.color == o.kind.color
    ensures (o.kind.Block? && Fading(o)) || (IsMirror(o) && Lit(o)) ==> r == o
    ensures !o.kind.Block? && !IsMirror(o) ==> r == o
  {
    match o.kind
    case Block(c, f) =>
      if byColor == c && f < 0 then o.(hasGravity := false, kind := Block(c, time)) else o
    case Boulder => o
    case LaserObject(role, _, _, _, _) =>
      if role.Mirror? && role.hitTime < 0 then o.(kind := o.kind.(role := Mirror(time))) else o
  }

  /** Only the first effective hit counts: once a block fades or a mirror is lit, later hits change nothing. */
  lemma HitOnce(o: Obj, c1: int, t1: int, c2: int, t2: int)
    requires t1 >= 0 && Hit(o, c1, t1) != o
    ensures Hit(Hit(o, c1, t1), c2, t2) == Hit(o, c1, t1)
  {
  }

  /** A block that starts to fade can no longer be swapped; a lit mirror still can. */
  lemma HitSwappable(o: Obj, c: int, t: int)
    requires t >= 0
    ensures o.kind.Block? ==> (Swappable(Hit(o, c, t)) <==> Swappable(o) && c != o.kind.color)
    ensures !o.kind.Block? ==> Swappable(Hit(o, c, t)) == Swappable(o)
  {
  }

  // ---------------------------------------------------------------------------
  // Well-formed scenes

  type Cells = seq<seq<Option<nat>>>

  /** References of object `j`: a child is a later laser segment; a struck object exists in the arena. */
  ghost predicate LinksOk(objs: seq<Obj>, j: nat)
    requires j < |objs|
  {
    objs[j].kind.LaserObject? ==>
      (objs[j].kind.child.Some? ==>
         j < objs[j].kind.child.value < |objs| && IsLaser(objs[objs[j].kind.child.value]))
      && (objs[j].kind.hitting.Some? ==> objs[j].kind.hitting.value < |objs|)
  }

  /** An occupied cell holds a live object standing on it. */
  ghost predicate CellOk(g: Cells, objs: seq<Obj>, y: nat, x: nat)
    requires y < |g| && x < |g[y]|
  {
    g[y][x].Some? ==>
      g[y][x].value < |objs| && !objs[g[y][x].value].destroyed && objs[g[y][x].value].pos == Vector(x, y)
  }

  /** A live object stands on the grid, in the cell that holds it; its links are in range. */
  ghost predicate ObjOk(g: Cells, objs: seq<Obj>, w: nat, h: nat, j: nat)
    requires Rect(g, w, h) && j < |objs|
  {
    (!objs[j].destroyed ==> InBounds(w, h, objs[j].pos) && g[objs[j].pos.y][objs[j].pos.x] == Some(j))
    && LinksOk(objs, j)
  }

  /** The grid and the arena agree. */
  ghost predicate Consistent(g: Cells, objs: seq<Obj>, w: nat, h: nat) {
    && Rect(g, w, h)
    && (forall y, x :: 0 <= y < h && 0 <= x < w ==> CellOk(g, objs, y, x))
    && (forall j :: 0 <= j < |objs| ==> ObjOk(g, objs, w, h, j))
  }

  predicate Unlinked(o: Obj) {
    o.kind.LaserObject? ==> o.kind.child.None? && o.kind.hitting.None?
  }

  ghost predicate PendingAt(objs: seq<Obj>, pending: set<nat>, j: nat)
    requires j < |objs|
  {
    objs[j].destroyed && j !in pending ==> Unlinked(objs[j])
  }

  /** Laser segments never fall. */
  ghost predicate Grounded(objs: seq<Obj>) {
    forall j :: 0 <= j < |objs| ==> IsLaser(objs[j]) ==> !objs[j].hasGravity
  }

  /** A block still on the board. */
  predicate LiveBlock(o: Obj) { o.kind.Block? && !o.destroyed }

  /** The number of blocks still on the board. */
  function LiveBlocks(objs: seq<Obj>): nat {
    if objs == [] then 0 else LiveBlocks(objs[..|objs| - 1]) + (if LiveBlock(objs[|objs| - 1]) then 1 else 0)
  }

  /** The block count is the number of blocks left, and a level is only won once none is left. */
  ghost predicate Tallied(objs: seq<Obj>, blockCount: int, winTime: int) {
    blockCount == LiveBlocks(objs) && (winTime > 0 ==> blockCount == 0)
  }

    /** Every destroyed object outside `pending` has let go of its beam and its target. */
  ghost predicate Pending(objs: seq<Obj>, pending: set<nat>) {
    forall j :: 0 <= j < |objs| ==> PendingAt(objs, pending, j)
  }

  /** `objs` with object `id` flagged destroyed. */
  function Mark(objs: seq<Obj>, id: nat): seq<Obj>
    requires id < |objs|
  {
    objs[id := objs[id].(destroyed := true)]
  }

  /** Flagging a live object destroyed and emptying its cell keeps the grid and arena in agreement. */
  lemma MarkConsistent(g: Cells, objs: seq<Obj>, w: nat, h: nat, j: nat)
    requires Consistent(g, objs, w, h) && j < |objs| && !objs[j].destroyed
    ensures InBounds(w, h, objs[j].pos) && |g| == h && |g[objs[j].pos.y]| == w
    ensures Consistent(Set(g, objs[j].pos, None), Mark(objs, j), w, h)
  {
    var n := Mark(objs, j);
    assert ObjOk(g, objs, w, h, j);
    var g' := Set(g, objs[j].pos, None);
    assert Rect(g', w, h);
    forall y, x | 0 <= y < h && 0 <= x < w
      ensures CellOk(g', n, y, x)
    {
      assert CellOk(g, objs, y, x);
    }
    forall k | 0 <= k < |n|
      ensures ObjOk(g', n, w, h, k)
    {
      assert ObjOk(g, objs, w, h, k);
      if !n[k].destroyed {
        assert CellOk(g, objs, objs[k].pos.y, objs[k].pos.x);
      }
    }
  }

  /** Replacing an object by one that stands in the same place, with links in range, keeps agreement. */
  lemma RetouchConsistent(g: Cells, objs: seq<Obj>, w: nat, h: nat, j: nat, v: Obj)
    requires Consistent(g, objs, w, h) && j < |objs|
    requires v.pos == objs[j].pos && v.destroyed == objs[j].destroyed && IsLaser(v) == IsLaser(objs[j])
    requires LinksOk(objs[j := v], j)
    ensures Consistent(g, objs[j := v], w, h)
  {
    var n := objs[j := v];
    assert ObjOk(g, objs, w, h, j);
    forall y, x | 0 <= y < h && 0 <= x < w
      ensures CellOk(g, n, y, x)
    {
      assert CellOk(g, objs, y, x);
    }
    forall k | 0 <= k < |n|
      ensures ObjOk(g, n, w, h, k)
    {
      assert ObjOk(g, objs, w, h, k);
    }
  }

  /** Once `id` has let go of everything, it no longer needs to be pending. */
  lemma PendingDrop(objs: seq<Obj>, pending: set<nat>, id: nat)
    requires id < |objs| && Pending(objs, pending + {id}) && Unlinked(objs[id])
    ensures Pending(objs, pending)
  {
    forall j | 0 <= j < |objs|
      ensures PendingAt(objs, pending, j)
    {
      assert PendingAt(objs, pending + {id}, j);
    }
  }

  lemma MarkPending(objs: seq<Obj>, pending: set<nat>, id: nat)
    requires id < |objs| && Pending(objs, pending)
    ensures Pending(Mark(objs, id), pending + {id})
  {
    forall j | 0 <= j < |objs|
      ensures PendingAt(Mark(objs, id), pending + {id}, j)
    {
      assert PendingAt(objs, pending, j);
    }
  }

  // ---------------------------------------------------------------------------
  // Retraction: what a chain of destroy / onMove / onHitEnd calls may do

  /** Live objects and standing hits, the measure that the cascade strictly lowers. */
  function Mass(o: Obj): nat {
    (if o.destroyed then 0 else 1) + (if o.kind.LaserObject? && o.kind.hitting.Some? then 1 else 0)
  }

  function Weight(objs: seq<Obj>): nat {
    if objs == [] then 0 else Weight(objs[..|objs| - 1]) + Mass(objs[|objs| - 1])
  }

  lemma {:induction false} WeightUpdate(objs: seq<Obj>, j: nat, v: Obj)
    requires j < |objs|
    ensures Weight(objs[j := v]) == Weight(objs) - Mass(objs[j]) + Mass(v)
    decreases |objs|
  {
    var n := objs[j := v];
    if j < |objs| - 1 {
      assert n[..|n| - 1] == objs[..|objs| - 1][j := v];
      WeightUpdate(objs[..|objs| - 1], j, v);
    } else {
      assert n[..|n| - 1] == objs[..|objs| - 1];
    }
  }

  /** A dark mirror with no beam and no target. */
  predicate Quiet(o: Obj) {
    IsMirror(o) && o.kind.role == Mirror(-1) && o.kind.child.None? && o.kind.hitting.None?
  }

  /**
   * One object before and after a cascade: it stays where it is, only laser
   * segments are destroyed, links are only ever cut, and a mirror only goes dark.
   */
  predicate StepOk(a: Obj, b: Obj) {
    && a.pos == b.pos && a.hasGravity == b.hasGravity
    && (a.destroyed ==> b.destroyed)
    && (b.destroyed && !a.destroyed ==> IsLaser(a))
    && if a.kind.LaserObject? then
         && b.kind.LaserObject? && b.kind.dir == a.kind.dir && b.kind.color == a.kind.color
         && (b.kind.child == a.kind.child || b.kind.child.None?)
         && (b.kind.hitting == a.kind.hitting || b.kind.hitting.None?)
         && (b.kind.role == a.kind.role || (a.kind.role.Mirror? && b.kind.role == Mirror(-1)))
       else b.kind == a.kind
  }

  /** When `j` lets go of a mirror it was striking, that mirror has gone dark. */
  ghost predicate HitEnded(a: seq<Obj>, b: seq<Obj>, j: nat)
    requires j < |a| == |b|
  {
    a[j].kind.LaserObject? && a[j].kind.hitting.Some? && b[j].kind.LaserObject? && b[j].kind.hitting.None?
    && a[j].kind.hitting.value < |a| && IsMirror(a[a[j].kind.hitting.value])
    ==> Quiet(b[a[j].kind.hitting.value])
  }

  /** When `j` lets go of its beam, the beam's first segment has been destroyed. */
  ghost predicate ChildDropped(a: seq<Obj>, b: seq<Obj>, j: nat)
    requires j < |a| == |b|
  {
    a[j].kind.LaserObject? && a[j].kind.child.Some? && b[j].kind.LaserObject? && b[j].kind.child.None?
    && a[j].kind.child.value < |a|
    ==> b[a[j].kind.child.value].destroyed
  }

  ghost predicate RetractAt(a: seq<Obj>, b: seq<Obj>, j: nat)
    requires j < |a| == |b|
  {
    StepOk(a[j], b[j]) && HitEnded(a, b, j) && ChildDropped(a, b, j)
  }

  ghost predicate Retracts(a: seq<Obj>, b: seq<Obj>) {
    |a| == |b| && forall j :: 0 <= j < |a| ==> RetractAt(a, b, j)
  }

  lemma RetractsRefl(a: seq<Obj>)
    ensures Retracts(a, a)
  {
    forall j | 0 <= j < |a|
      ensures RetractAt(a, a, j)
    {
    }
  }

  lemma RetractsTrans(a: seq<Obj>, b: seq<Obj>, c: seq<Obj>)
    requires Retracts(a, b) && Retracts(b, c)
    ensures Retracts(a, c)
  {
    forall j | 0 <= j < |a|
      ensures RetractAt(a, c, j)
    {
      assert RetractAt(a, b, j) && RetractAt(b, c, j);
      if a[j].kind.LaserObject? && a[j].kind.hitting.Some? && a[j].kind.hitting.value < |a| {
        var t := a[j].kind.hitting.value;
        assert RetractAt(a, b, t) && RetractAt(b, c, t);
      }
      if a[j].kind.LaserObject? && a[j].kind.child.Some? && a[j].kind.child.value < |a| {
        var t := a[j].kind.child.value;
        assert RetractAt(a, b, t) && RetractAt(b, c, t);
      }
    }
  }

  /** The objects reached from `id` by following `child` links: a source and its beam. */
  ghost function Downstream(objs: seq<Obj>, id: nat): (r: set<nat>)
    requires id < |objs|
    ensures forall j :: j in r ==> id <= j < |objs|
    decreases |objs| - id
  {
    {id} + if objs[id].kind.LaserObject? && objs[id].kind.child.Some?
              && id < objs[id].kind.child.value < |objs|
           then Downstream(objs, objs[id].kind.child.value) else {}
  }

  lemma {:induction false} DownstreamKinds(a: seq<Obj>, b: seq<Obj>, id: nat)
    requires id < |a| == |b|
    requires forall j :: 0 <= j < |a| ==> a[j].kind == b[j].kind
    ensures Downstream(a, id) == Downstream(b, id)
    decreases |a| - id
  {
    if a[id].kind.LaserObject? && a[id].kind.child.Some? && id < a[id].kind.child.value < |a| {
      DownstreamKinds(a, b, a[id].kind.child.value);
    }
  }

  datatype Level = Level(size: Vector, data: seq<seq<nat>>)

  ghost predicate LevelsFit(levels: seq<Level>, w: nat, h: nat) {
    forall i :: 0 <= i < |levels| ==> levels[i].size == Vector(w, h) && Rect(levels[i].data, w, h)
  }

  class Scene {
    const width: nat
    const height: nat
    const levels: seq<Level>
    var level: nat
    var grid: Cells
    var objs: seq<Obj>
    var blockCount: int
    var time: int
    var timeSinceLoad: int
    var timeSinceMove: int
    var winTime: int
    var selected: Option<Vector>
    var moves: int

    /** The grid and arena agree, the level table fits the grid, and the selection is on the grid. */
    ghost predicate Shaped()
      reads this`grid, this`objs, this`level, this`selected
    {
      Consistent(grid, objs, width, height) && LevelsFit(levels, width, height) && level < |levels|
      && (selected.Some? ==> InBounds(width, height, selected.value))
    }

    /** A scene between two calls from the host: no object is half-destroyed. */
    ghost predicate Valid()
      reads this`grid, this`objs, this`level, this`selected, this`blockCount, this`winTime
    {
      Shaped() && Pending(objs, {}) && Grounded(objs) && Tallied(objs, blockCount, winTime)
    }

    /**
     * destroy, with each kind's onDestroy: a block lowers the block count and
     * wins the level at zero; a beam source retracts its beam (onMove).
     */
    method Destroy(id: nat, ghost pending: set<nat>)
      requires Consistent(grid, objs, width, height) && id < |objs| && Pending(objs, pending)
      modifies this`objs, this`grid, this`blockCount, this`winTime
      decreases Weight(objs), 0
      ensures Consistent(grid, objs, width, height) && Pending(objs, pending)
      ensures |objs| == old(|objs|) && objs[id].destroyed
      ensures Weight(objs) <= old(Weight(objs))
      ensures old(objs[id].destroyed) ==> objs == old(objs) && grid == old(grid)
      ensures !old(objs[id].destroyed) ==> Retracts(Mark(old(objs), id), objs)
      ensures !old(objs[id].destroyed) && !old(objs[id].kind.LaserObject?) ==>
        && InBounds(width, height, old(objs[id].pos))
        && objs == Mark(old(objs), id) && grid == Set(old(grid), old(objs[id].pos), None)
      ensures if old(objs[id].kind.Block? && !objs[id].destroyed)
        then blockCount == old(blockCount) - 1 && winTime == (if blockCount <= 0 then time else old(winTime))
        else blockCount == old(blockCount) && winTime == old(winTime)
      ensures Downstream(old(objs), id) !! pending ==>
        forall j :: j in Downstream(old(objs), id) ==> objs[j].destroyed
    {
      if !objs[id].destroyed {
        var o := objs[id];
        MarkConsistent(grid, objs, width, height, id);
        MarkPending(objs, pending, id);
        WeightUpdate(objs, id, o.(destroyed := true));
        DownstreamKinds(objs, Mark(objs, id), id);
        objs := Mark(objs, id);
        grid := Set(grid, o.pos, None);
        match o.kind {
          case Block(_, _) =>
            blockCount := blockCount - 1;
            if blockCount <= 0 {
              winTime := time;
            }
            PendingDrop(objs, pending, id);
            RetractsRefl(objs);
          case Boulder =>
            PendingDrop(objs, pending, id);
            RetractsRefl(objs);
          case LaserObject(_, _, _, _, _) =>
            ghost var o1 := objs;
            OnMove(id, pending + {id});
            PendingDrop(objs, pending, id);
            assert RetractAt(o1, objs, id);
        }
      } else if id !in pending {
        assert PendingAt(objs, pending, id);
        assert Downstream(objs, id) == {id};
      }
    }

    /**
     * onMove of a beam source: drop its beam, let go of the object it was
     * striking (onHitEnd, which makes a struck mirror retract too), and a
     * mirror goes dark. The reference to the struck object is cut before it is
     * notified.
     */
    method OnMove(id: nat, ghost pending: set<nat>)
      requires Consistent(grid, objs, width, height) && id < |objs| && Pending(objs, pending)
      modifies this`objs, this`grid, this`blockCount, this`winTime
      decreases Weight(objs), 2
      ensures Consistent(grid, objs, width, height) && Pending(objs, pending)
      ensures Retracts(old(objs), objs) && Weight(objs) <= old(Weight(objs))
      ensures blockCount == old(blockCount) && winTime == old(winTime)
      ensures Unlinked(objs[id])
      ensures IsMirror(old(objs[id])) ==> Quiet(objs[id])
      ensures Downstream(old(objs), id) - {id} !! pending ==>
        forall j :: j in Downstream(old(objs), id) && j != id ==> objs[j].destroyed
    {
      if !objs[id].kind.LaserObject? {
        RetractsRefl(objs);
        return;
      }
      ghost var o0 := objs;
      DropBeam(id, pending);
      ghost var o1 := objs;
      assert RetractAt(o0, o1, id);
      var h := objs[id].kind.hitting;
      CutHitLinks(grid, objs, width, height, id, pending);
      objs := CutHit(objs, id);
      ghost var o2 := objs;
      if h.Some? && IsMirror(objs[h.value]) {
        OnMove(h.value, pending);
      } else {
        RetractsRefl(objs);
      }
      ReleaseRetracts(o1, o2, objs, id);
      ghost var o3 := objs;
      assert RetractAt(o2, o3, id);
      if objs[id].kind.role.Mirror? {
        DarkenMirror(grid, objs, width, height, id, pending);
        objs := Darken(objs, id);
        RetractsTrans(o1, o3, objs);
      }
      RetractsTrans(o0, o1, objs);
      RetractsKeepDestroyed(o1, objs, Downstream(o0, id) - {id});
    }

    /** The first half of a beam source's onMove: destroy the beam and forget it. */
    method DropBeam(id: nat, ghost pending: set<nat>)
      requires Consistent(grid, objs, width, height) && id < |objs| && Pending(objs, pending)
      requires objs[id].kind.LaserObject?
      modifies this`objs, this`grid, this`blockCount, this`winTime
      decreases Weight(objs), 1
      ensures Consistent(grid, objs, width, height) && Pending(objs, pending)
      ensures Retracts(old(objs), objs) && Weight(objs) <= old(Weight(objs))
      ensures blockCount == old(blockCount) && winTime == old(winTime)
      ensures objs[id].kind.LaserObject? && objs[id].kind.child.None?
      ensures Downstream(old(objs), id) - {id} !! pending ==>
        forall j :: j in Downstream(old(objs), id) && j != id ==> objs[j].destroyed
    {
      ghost var o0 := objs;
      assert ObjOk(grid, objs, width, height, id);
      var c := objs[id].kind.child;
      if c.Some? {
        ChildDownstream(objs, id);
        Destroy(c.value, pending);
        MarkRetracts(o0, c.value, objs);
      } else {
        RetractsRefl(objs);
      }
      ghost var o1 := objs;
      assert RetractAt(o0, o1, id);
      CutChildLinks(grid, objs, width, height, id, pending);
      objs := CutChild(objs, id);
      RetractsTrans(o0, o1, objs);
      if c.Some? {
        RetractsKeepDestroyed(o1, objs, Downstream(o0, c.value));
      }
    }

    /**
     * emit: a source whose beam is gone grows a new one. Into empty cells it
     * lays a laser segment, which continues the beam in the same call; when
     * the next cell is taken, the first (ticking) source strikes its occupant.
     */
    method Emit(id: nat, first: bool)
      requires Valid() && id < |objs| && !objs[id].destroyed && objs[id].kind.LaserObject?
      modifies this`objs, this`grid
      decreases Reach(width, height, objs[id].pos, objs[id].kind.dir), 1
      ensures Valid()
      ensures Emitted(old(objs), old(grid), objs, grid, width, height, id, first, time)
      ensures Stays(old(objs), objs)
    {
      var src := objs[id];
      assert ObjOk(grid, objs, width, height, id);
      StaysRefl(objs);
      if src.kind.child.Some? && !objs[src.kind.child.value].destroyed {
        return;
      }
      var next := Step(src.pos, src.kind.dir);
      if InBounds(width, height, next) {
        var cell := Get(grid, next);
        if cell == Some(id) {
          return;
        }
        if cell.None? {
          Extend(id);
        } else if first {
          assert CellOk(grid, objs, next.y, next.x);
          Strike(id, cell.value);
        }
      }
    }

    /** The first step of a beam into an empty cell: a new segment, which at once emits in its turn. */
    method Extend(id: nat)
      requires Valid() && id < |objs| && !objs[id].destroyed && objs[id].kind.LaserObject? && !LiveChild(objs, id)
      requires InBounds(width, height, Step(objs[id].pos, objs[id].kind.dir))
      requires Get(grid, Step(objs[id].pos, objs[id].kind.dir)).None?
      modifies this`objs, this`grid
      decreases Reach(width, height, objs[id].pos, objs[id].kind.dir), 0
      ensures Valid()
      ensures var src := old(objs[id]);
              var next := Step(src.pos, src.kind.dir);
              var k := FreeRun(old(grid), width, height, next, src.kind.dir);
        k > 0
        && objs == old(objs)[id := Linked(src, |old(objs)|)]
                   + Beam(next, src.kind.dir, src.kind.color, time, |old(objs)|, k)
        && grid == Paint(old(grid), width, height, next, src.kind.dir, |old(objs)|, k)
      ensures Stays(old(objs), objs)
    {
      var src := objs[id];
      var d := src.kind.dir;
      var next := Step(src.pos, d);
      ghost var g0 := grid;
      ghost var o0 := objs;
      var c := |objs|;
      SpawnConsistent(grid, objs, width, height, id, NewLaser(next, d, src.kind.color, time));
      objs := objs[id := Linked(src, c)] + [NewLaser(next, d, src.kind.color, time)];
      grid := Set(grid, next, Some(c));
      SpawnBlocks(o0, id, NewLaser(next, d, src.kind.color, time));
      assert Valid();
      FreeRunSetOff(g0, width, height, Step(next, d), d, next, Some(c));
      assert ObjOk(g0, o0, width, height, id);
      assert Reach(width, height, next, d) < Reach(width, height, src.pos, d);
      ghost var o1 := objs;
      assert Stays(o0, o1) by {
        forall j | 0 <= j < |o0|
          ensures StaysAt(o0, o1, j)
        {
        }
      }
      Emit(c, false);
      StaysTrans(o0, o1, objs);
      BeamGrows(o0[id := Linked(src, c)], NewLaser(next, d, src.kind.color, time), objs, grid, g0,
                width, height, next, d, src.kind.color, time, c, FreeRun(g0, width, height, next, d));
    }

    /** The strike of a first emit: the occupant of the next cell is hit (onHit) and becomes the source's target. */
    method Strike(id: nat, t: nat)
      requires Valid() && id < |objs| && t < |objs| && t != id && objs[id].kind.LaserObject? && !objs[id].destroyed
      modifies this`objs
      ensures Valid() && Stays(old(objs), objs)
      ensures var src := old(objs[id]);
        objs == old(objs)[t := Hit(old(objs[t]), src.kind.color, time)][id := src.(kind := src.kind.(hitting := Some(t)))]
    {
      var color := objs[id].kind.color;
      StrikeConsistent(grid, objs, width, height, id, t, time);
      StrikeBlocks(objs, id, t, color, time);
      objs := objs[t := Hit(objs[t], color, time)];
      objs := objs[id := objs[id].(kind := objs[id].kind.(hitting := Some(t)))];
      assert Stays(old(objs), objs) by {
        forall j | 0 <= j < |objs|
          ensures StaysAt(old(objs), objs, j)
        {
        }
      }
    }

    /** The placement half of move: the object stands at `to`; the cell it left is emptied only if it still holds it. */
    method Place(id: nat, to: Vector)
      requires id < |objs| && Rect(grid, width, height)
      requires InBounds(width, height, objs[id].pos) && InBounds(width, height, to)
      modifies this`objs, this`grid
      ensures objs == Moved(old(objs), id, to)
      ensures grid == Set(Vacate(old(grid), old(objs[id].pos), id), to, Some(id))
    {
      if Get(grid, objs[id].pos) == Some(id) {
        grid := Set(grid, objs[id].pos, None);
      }
      objs := Moved(objs, id, to);
      grid := Set(grid, to, Some(id));
    }

    /**
     * move: the object steps onto the empty cell `to` and then drops its beam
     * and its target (onMove). Laser segments never move: they do not fall
     * and cannot be swapped.
     */
    method Move(id: nat, to: Vector)
      requires Valid() && id < |objs| && !objs[id].destroyed && !IsLaser(objs[id])
      requires InBounds(width, height, to) && Get(grid, to).None?
      modifies this`objs, this`grid, this`blockCount, this`winTime
      ensures Valid() && |objs| == old(|objs|)
      ensures objs[id].pos == to && !objs[id].destroyed && Get(grid, to) == Some(id)
      ensures Vacant(grid, old(objs[id].pos))
      ensures Retracts(Moved(old(objs), id, to), objs)
      ensures Unlinked(objs[id]) && (IsMirror(old(objs[id])) ==> Quiet(objs[id]))
      ensures forall j :: j in Downstream(old(objs), id) && j != id ==> objs[j].destroyed
      ensures blockCount == old(blockCount) && winTime == old(winTime)
    {
      var from := objs[id].pos;
      assert ObjOk(grid, objs, width, height, id);
      MoveConsistent(grid, objs, width, height, id, to);
      Place(id, to);
      ghost var g1, o1 := grid, objs;
      LiveBlocksUpdate(old(objs), id, o1[id]);
      OnMove(id, {});
      RetractsGrounded(o1, objs);
      RetractsBlocks(o1, objs);
      assert RetractAt(o1, objs, id);
      assert ObjOk(grid, objs, width, height, id);
      EmptyStaysEmpty(g1, o1, grid, objs, width, height, from);
      DownstreamKinds(old(objs), o1, id);
      DownstreamDestroyed(o1, objs, id);
    }

    /**
     * doGravity: a laser segment right below is destroyed and the object
     * falls into the cell; it also falls into an empty cell; anything else
     * below, or the bottom edge, holds it up.
     */
    method DoGravity(id: nat)
      requires Valid() && id < |objs| && !objs[id].destroyed && objs[id].hasGravity
      modifies this`objs, this`grid, this`blockCount, this`winTime
      ensures Valid() && |objs| == old(|objs|)
      ensures var below := Step(old(objs[id].pos), Down);
        objs[id].pos == (if InBounds(width, height, below) && Open(old(grid), old(objs), below)
                         then below else old(objs[id].pos))
      ensures Retracts(Moved(old(objs), id, objs[id].pos), objs)
      ensures var below := Step(old(objs[id].pos), Down);
        InBounds(width, height, below) && Open(old(grid), old(objs), below) ==>
          && Unlinked(objs[id]) && (IsMirror(old(objs[id])) ==> Quiet(objs[id]))
          && (forall j :: j in Downstream(old(objs), id) && j != id ==> objs[j].destroyed)
          && (Get(old(grid), below).Some? ==>
                forall j :: j in Downstream(old(objs), Get(old(grid), below).value) ==> objs[j].destroyed)
      ensures var below := Step(old(objs[id].pos), Down);
        !(InBounds(width, height, below) && Open(old(grid), old(objs), below)) ==>
          objs == old(objs) && grid == old(grid)
      ensures blockCount == old(blockCount) && winTime == old(winTime)
    {
      ghost var o0 := objs;
      GroundedAt(objs, id);
      assert ObjOk(grid, objs, width, height, id);
      var below := Step(objs[id].pos, Down);
      if InBounds(width, height, below) {
        var ob := Get(grid, below);
        assert CellOk(grid, objs, below.y, below.x);
        if ob.Some? && IsLaser(objs[ob.value]) {
          ghost var g0 := grid;
          MarkConsistent(grid, objs, width, height, ob.value);
          GroundedMark(objs, ob.value);
          Destroy(ob.value, {});
          RetractsGrounded(Mark(o0, ob.value), objs);
          RetractsBlocks(Mark(o0, ob.value), objs);
          LiveBlocksUpdate(o0, ob.value, Mark(o0, ob.value)[ob.value]);
          EmptyStaysEmpty(Set(g0, below, None), Mark(o0, ob.value), grid, objs, width, height, below);
          MarkRetracts(o0, ob.value, objs);
          assert RetractAt(o0, objs, id);
          ghost var o1 := objs;
          ghost var t := ob.value;
          Move(id, below);
          RetractsMoved(o0, o1, id, below);
          RetractsTrans(Moved(o0, id, below), Moved(o1, id, below), objs);
          RetractsKeepDestroyed(Moved(o1, id, below), objs, Downstream(o0, t));
          FallUnlinks(o0, objs, id, below);
          return;
        }
        if ob.None? {
          ghost var o1 := objs;
          Move(id, below);
          RetractsMoved(o0, o1, id, below);
          RetractsTrans(Moved(o0, id, below), Moved(o1, id, below), objs);
          FallUnlinks(o0, objs, id, below);
          return;
        }
      }
      assert Moved(o0, id, objs[id].pos) == o0;
      RetractsRefl(objs);
    }

    /**
     * The gravity pass of tick: columns left to right, each from the bottom
     * row up, every object with gravity tries to fall. Scanning bottom-up
     * means an object that fell is not visited again: every object ends where
     * it was or one row lower.
     */
    method Gravity()
      requires Valid()
      modifies this`objs, this`grid, this`blockCount, this`winTime
      ensures Valid() && Settled(old(objs), objs)
      ensures blockCount == old(blockCount) && winTime == old(winTime)
    {
      ghost var o0 := objs;
      FellRefl(o0, width, height);
      var x := 0;
      while x < width
        invariant 0 <= x <= width
        invariant Valid() && Fell(o0, objs, width, height, x, height - 1)
        invariant blockCount == old(blockCount) && winTime == old(winTime)
      {
        var y: int := height - 1;
        while y >= 0
          invariant -1 <= y < height
          invariant Valid() && Fell(o0, objs, width, height, x, y)
          invariant blockCount == old(blockCount) && winTime == old(winTime)
        {
          var cell := Get(grid, Vector(x, y));
          assert CellOk(grid, objs, y, x);
          if cell.Some? && objs[cell.value].hasGravity {
            ghost var o1 := objs;
            DoGravity(cell.value);
            FellStep(o0, o1, objs, cell.value, width, height, x, y);
          } else {
            FellWeaken(o0, objs, width, height, x, y, x, y - 1);
          }
          y := y - 1;
        }
        FellWeaken(o0, objs, width, height, x, -1, x + 1, height - 1);
        x := x + 1;
      }
      FellSettled(o0, objs, width, height);
    }

    /**
     * swap: when both cells hold swappable objects they trade places, each
     * then drops its beam and its target, and the move is counted.
     * Otherwise nothing happens.
     */
    method Swap(p1: Vector, p2: Vector)
      requires Valid() && InBounds(width, height, p1) && InBounds(width, height, p2) && p1 != p2
      modifies this`objs, this`grid, this`blockCount, this`winTime, this`timeSinceMove, this`moves
      ensures Valid() && |objs| == old(|objs|)
      ensures blockCount == old(blockCount) && winTime == old(winTime)
      ensures old(Movable(grid, objs, p1) && Movable(grid, objs, p2)) ==>
        var a, b := old(Get(grid, p1).value), old(Get(grid, p2).value);
        Get(grid, p1) == Some(b) && Get(grid, p2) == Some(a)
        && Retracts(Moved(Moved(old(objs), a, p2), b, p1), objs)
        && Unlinked(objs[a]) && Unlinked(objs[b])
        && (forall j :: j in Downstream(old(objs), a) && j != a ==> objs[j].destroyed)
        && (forall j :: j in Downstream(old(objs), b) && j != b ==> objs[j].destroyed)
        && (IsMirror(old(objs[a])) ==> Quiet(objs[a])) && (IsMirror(old(objs[b])) ==> Quiet(objs[b]))
        && timeSinceMove == 0 && moves == old(moves) + 1
      ensures !old(Movable(grid, objs, p1) && Movable(grid, objs, p2)) ==>
        objs == old(objs) && grid == old(grid) && timeSinceMove == old(timeSinceMove) && moves == old(moves)
    {
      var d1 := Get(grid, p1);
      var d2 := Get(grid, p2);
      assert CellOk(grid, objs, p1.y, p1.x) && CellOk(grid, objs, p2.y, p2.x);
      if d1.Some? && d2.Some? && Swappable(objs[d1.value]) && Swappable(objs[d2.value]) {
        var a, b := d1.value, d2.value;
        Exchange(a, b);
        ghost var o1 := objs;
        DownstreamKinds(old(objs), o1, a);
        DownstreamKinds(old(objs), o1, b);
        MovedHooks(a, b);
        assert RetractAt(o1, objs, a) && RetractAt(o1, objs, b);
        assert ObjOk(grid, objs, width, height, a) && ObjOk(grid, objs, width, height, b);
        timeSinceMove := 0;
        moves := moves + 1;
      }
    }

    /** The onMove halves of the two moves of a swap, run once both objects stand on their new cells. */
    method MovedHooks(a: nat, b: nat)
      requires Valid() && a < |objs| && b < |objs|
      modifies this`objs, this`grid, this`blockCount, this`winTime
      ensures Valid() && Retracts(old(objs), objs)
      ensures Unlinked(objs[a]) && Unlinked(objs[b])
      ensures forall j :: j in Downstream(old(objs), a) && j != a ==> objs[j].destroyed
      ensures forall j :: j in Downstream(old(objs), b) && j != b ==> objs[j].destroyed
      ensures IsMirror(old(objs[a])) ==> Quiet(objs[a])
      ensures IsMirror(old(objs[b])) ==> Quiet(objs[b])
      ensures blockCount == old(blockCount) && winTime == old(winTime)
    {
      ghost var o1 := objs;
      OnMove(a, {});
      RetractsGrounded(o1, objs);
      RetractsBlocks(o1, objs);
      assert Valid();
      ghost var o2 := objs;
      OnMove(b, {});
      RetractsGrounded(o2, objs);
      RetractsBlocks(o2, objs);
      RetractsTrans(o1, o2, objs);
      assert RetractAt(o2, objs, a) && RetractAt(o1, o2, b);
      if IsMirror(o1[a]) {
        RetractsQuiet(o2, objs, a);
      }
      DownstreamDestroyed(o1, objs, a);
      DownstreamDestroyed(o1, objs, b);
    }

    /** The placement halves of the two moves of a swap, before either object's onMove runs. */
    method Exchange(a: nat, b: nat)
      requires Valid() && a < |objs| && b < |objs| && !objs[a].destroyed && !objs[b].destroyed
      requires objs[a].pos != objs[b].pos
      modifies this`objs, this`grid
      ensures Valid()
      ensures objs == Moved(Moved(old(objs), a, old(objs[b].pos)), b, old(objs[a].pos))
      ensures Holds(grid, old(objs[a].pos), Some(b)) && Holds(grid, old(objs[b].pos), Some(a))
    {
      var p1, p2 := objs[a].pos, objs[b].pos;
      ExchangeConsistent(grid, objs, width, height, a, b);
      MovedBlocks(objs, a, p2);
      MovedBlocks(Moved(objs, a, p2), b, p1);
      Place(a, p2);
      Place(b, p1);
    }

    /**
     * tick of one object: a laser segment re-emits once it is older than the
     * laser time, an emitter once the game is older than it, a lit mirror
     * once it has been lit that long; a fading block is destroyed once the
     * fade is over; a boulder does nothing.
     */
    method TickObject(id: nat)
      requires Valid() && id < |objs| && !objs[id].destroyed
      modifies this`objs, this`grid, this`blockCount, this`winTime
      ensures Valid() && Stays(old(objs), objs)
      ensures !Due(old(objs[id]), time) ==>
        objs == old(objs) && grid == old(grid) && blockCount == old(blockCount) && winTime == old(winTime)
      ensures Due(old(objs[id]), time) && old(objs[id].kind.LaserObject?) ==>
        Emitted(old(objs), old(grid), objs, grid, width, height, id, true, time)
      ensures Due(old(objs[id]), time) && old(objs[id].kind.Block?) ==>
        objs[id].destroyed && blockCount == old(blockCount) - 1
        && winTime == (if blockCount <= 0 then time else old(winTime))
      ensures Due(old(objs[id]), time) && old(objs[id].kind.Block?) ==>
        && InBounds(width, height, old(objs[id].pos))
        && objs == Mark(old(objs), id) && grid == Set(old(grid), old(objs[id].pos), None)
      ensures old(objs[id].kind.LaserObject?) ==> blockCount == old(blockCount) && winTime == old(winTime)
      ensures winTime == old(winTime) || (old(winTime) <= 0 && winTime == time)
      ensures forall j :: 0 <= j < old(|objs|) && j != id && DueBlock(old(objs[j]), time) ==> objs[j] == old(objs[j])
    {
      var o := objs[id];
      if !Due(o, time) {
        StaysRefl(objs);
        return;
      }
      match o.kind {
        case LaserObject(_, _, _, _, _) =>
          ghost var o0, g0 := objs, grid;
          Emit(id, true);
          EmittedKeepsFading(o0, g0, objs, grid, width, height, id, true, time);
        case Block(_, _) =>
          ghost var o0 := objs;
          LiveBlocksZero(o0);
          GroundedMark(objs, id);
          Destroy(id, {});
          RetractsGrounded(Mark(o0, id), objs);
          RetractsBlocks(Mark(o0, id), objs);
          LiveBlocksUpdate(o0, id, Mark(o0, id)[id]);
          RetractsStays(Mark(o0, id), objs);
          assert Stays(o0, Mark(o0, id)) by {
            forall j | 0 <= j < |o0|
              ensures StaysAt(o0, Mark(o0, id), j)
            {
            }
          }
          StaysTrans(o0, Mark(o0, id), objs);
          RetractsKeepBlocks(Mark(o0, id), objs);
      }
    }

    /**
     * One visit of the object pass: the object standing at column `x`, row
     * `y`, if any, ticks. The pass moves on by one cell (Progress), nothing
     * moves, and on an idle board nothing changes.
     */
    method TickAt(x: int, y: int, ghost g0: Cells, ghost o0: seq<Obj>)
      requires Valid() && InBounds(width, height, Vector(x, y)) && Consistent(g0, o0, width, height)
      requires Stays(o0, objs) && Progress(g0, o0, grid, objs, width, height, x, y, time)
      modifies this`objs, this`grid, this`blockCount, this`winTime
      ensures Valid() && Stays(o0, objs) && Progress(g0, o0, grid, objs, width, height, x, y + 1, time)
      ensures winTime == old(winTime) || (old(winTime) <= 0 && winTime == time)
      ensures Idle(old(objs), time) ==>
        objs == old(objs) && grid == old(grid) && blockCount == old(blockCount) && winTime == old(winTime)
    {
      var cell := Get(grid, Vector(x, y));
      assert CellOk(grid, objs, y, x);
      ghost var o1, g1 := objs, grid;
      if cell.Some? {
        TickObject(cell.value);
        StaysTrans(o0, o1, objs);
      } else {
        StaysRefl(objs);
      }
      VisitStep(g0, o0, g1, o1, grid, objs, width, height, cell, x, y, time);
    }

    /**
     * The object pass of tick: every object on the grid ticks, column by
     * column, top to bottom. When nothing is due nothing changes; every block
     * whose fade was over is gone; every source ready to emit into an empty
     * cell ahead has a segment there; the win time is only ever set, never moved.
     */
    method TickObjects()
      requires Valid()
      modifies this`objs, this`grid, this`blockCount, this`winTime
      ensures Valid() && Stays(old(objs), objs)
      ensures winTime == old(winTime) || (old(winTime) <= 0 && winTime == time)
      ensures Idle(old(objs), time) ==>
        objs == old(objs) && grid == old(grid) && blockCount == old(blockCount) && winTime == old(winTime)
      ensures forall j :: 0 <= j < old(|objs|) && DueBlock(old(objs[j]), time) ==> objs[j].destroyed
      ensures forall j :: 0 <= j < old(|objs|) && Ready(old(grid), old(objs), width, height, j, time) ==>
        SegmentAt(grid, objs, Step(old(objs[j].pos), old(objs[j].kind.dir)))
    {
      ghost var o0, g0, b0, w0 := objs, grid, blockCount, winTime;
      ProgressStart(g0, o0, width, height, time);
      StaysRefl(objs);
      var x := 0;
      while x < width
        invariant 0 <= x <= width
        invariant Valid() && Stays(o0, objs)
        invariant winTime == w0 || (w0 <= 0 && winTime == time)
        invariant Idle(o0, time) ==> objs == o0 && grid == g0 && blockCount == b0 && winTime == w0
        invariant Progress(g0, o0, grid, objs, width, height, x, 0, time)
      {
        var y := 0;
        while y < height
          invariant 0 <= y <= height
          invariant Valid() && Stays(o0, objs)
          invariant winTime == w0 || (w0 <= 0 && winTime == time)
          invariant Idle(o0, time) ==> objs == o0 && grid == g0 && blockCount == b0 && winTime == w0
          invariant Progress(g0, o0, grid, objs, width, height, x, y, time)
        {
          TickAt(x, y, g0, o0);
          y := y + 1;
        }
        ProgressColumn(g0, o0, grid, objs, width, height, x, time);
        x := x + 1;
      }
      ProgressDone(g0, o0, grid, objs, width, height, time);
    }

    /** init: the scene starts on the first level with the clock at zero and nothing selected. */
    constructor(w: nat, h: nat, levels: seq<Level>)
      requires |levels| > 0 && LevelsFit(levels, w, h)
      ensures Valid() && Loaded() && level == 0 && time == 0 && selected.None?
      ensures width == w && height == h && this.levels == levels
    {
      width, height, this.levels := w, h, levels;
      level, grid, objs, blockCount := 0, [], [], 0;
      time, timeSinceLoad, timeSinceMove, winTime := 0, 0, 0, -1;
      selected, moves := None, 0;
      new;
      LoadLevel(0);
    }

    /** The scene holds level `level` as freshly loaded: its codes decoded cell by cell, its blocks counted, its clocks reset. */
    ghost predicate Loaded()
      requires Valid()
      reads this`grid, this`objs, this`level, this`selected, this`blockCount, this`winTime,
            this`timeSinceLoad, this`timeSinceMove, this`moves
    {
      var data := levels[level].data;
      && (forall y, x :: 0 <= y < height && 0 <= x < width ==> Loads(grid[y][x], data[y][x], objs, Vector(x, y)))
      && (forall j :: 0 <= j < |objs| ==> Fresh(objs[j]))
      && blockCount == Blocks(data)
      && timeSinceLoad == 0 && timeSinceMove == 0 && winTime == -1 && moves == 0
    }

    /** loadObject: decode the level code of one cell; a block also counts towards the blocks to clear. */
    method LoadObject(data: seq<seq<nat>>, pos: Vector) returns (o: Option<Obj>)
      requires 0 <= pos.y < |data| && 0 <= pos.x < |data[pos.y]|
      modifies this`blockCount
      ensures Decode(Get(data, pos)) == Empty ==> o.None?
      ensures Decode(Get(data, pos)) != Empty ==> o == Some(Spawn(Decode(Get(data, pos)), pos))
      ensures blockCount == old(blockCount) + (if Decode(Get(data, pos)).BlockAt? then 1 else 0)
    {
      var s := Decode(Get(data, pos));
      if s == Empty {
        return None;
      }
      if s.BlockAt? {
        blockCount := blockCount + 1;
      }
      return Some(Spawn(s, pos));
    }

    /**
     * loadLevel: a fresh grid built row by row from the level codes, with
     * the block count, the clocks since load and move, the win time and the
     * move counter reset. The selection and the game clock are kept.
     */
    method LoadLevel(n: nat)
      requires LevelsFit(levels, width, height) && n < |levels|
      requires selected.Some? ==> InBounds(width, height, selected.value)
      modifies this`level, this`grid, this`objs, this`blockCount, this`timeSinceLoad, this`timeSinceMove,
               this`winTime, this`moves
      ensures Valid() && level == n && Loaded()
    {
      level := n;
      var data := levels[n].data;
      assert Rect(data, width, height);
      timeSinceLoad, timeSinceMove, winTime, moves := 0, 0, -1, 0;
      LoadRows(data);
      LoadedConsistent(grid, data, objs, width, height);
    }

    /** The row loop of loadLevel: a fresh grid and arena, filled row by row from the level data. */
    method LoadRows(data: seq<seq<nat>>)
      requires Rect(data, width, height)
      modifies this`grid, this`objs, this`blockCount
      ensures |grid| == height && RowsLoaded(grid, data, objs, height, width) && AllPlaced(grid, [], objs, height, width)
      ensures blockCount == Blocks(data) == LiveBlocks(objs)
    {
      grid, objs, blockCount := [], [], 0;
      var y := 0;
      while y < height
        invariant 0 <= y <= height && |grid| == y
        invariant RowsLoaded(grid, data, objs, y, width) && AllPlaced(grid, [], objs, y, width)
        invariant blockCount == Blocks(data[..y]) == LiveBlocks(objs)
      {
        var row := LoadRow(data, y);
        ghost var g0 := grid;
        grid := grid + [row];
        RowAppended(g0, data, objs, row, y, width);
        BlocksSnoc(data, y);
        y := y + 1;
      }
      assert data[..y] == data;
    }

    /** One row of loadLevel: each cell of row `y` decoded in turn, its objects appended to the arena. */
    method LoadRow(data: seq<seq<nat>>, y: nat) returns (row: seq<Option<nat>>)
      requires y < |data| && |data[y]| == width && |grid| == y
      requires RowsLoaded(grid, data, objs, y, width) && AllPlaced(grid, [], objs, y, width)
      requires blockCount == LiveBlocks(objs)
      modifies this`objs, this`blockCount
      ensures |row| == width && RowsLoaded(grid, data, objs, y, width) && AllPlaced(grid, row, objs, y, width)
      ensures forall c :: 0 <= c < width ==> Loads(row[c], data[y][c], objs, Vector(c, y))
      ensures blockCount == old(blockCount) + RowBlocks(data[y]) && blockCount == LiveBlocks(objs)
    {
      row := [];
      var x := 0;
      while x < width
        invariant 0 <= x <= width && |row| == x
        invariant RowsLoaded(grid, data, objs, y, width) && AllPlaced(grid, row, objs, y, width)
        invariant forall c :: 0 <= c < x ==> Loads(row[c], data[y][c], objs, Vector(c, y))
        invariant blockCount == old(blockCount) + RowBlocks(data[y][..x]) && blockCount == LiveBlocks(objs)
      {
        row := LoadCell(data, y, x, row);
        RowBlocksSnoc(data[y], x);
        x := x + 1;
      }
      assert data[y][..x] == data[y];
    }

    /** One cell of loadLevel: the object its level code places, if any, appended to the arena and the row. */
    method LoadCell(data: seq<seq<nat>>, y: nat, x: nat, r0: seq<Option<nat>>) returns (row: seq<Option<nat>>)
      requires y < |data| && x < |data[y]| == width && |grid| == y && |r0| == x
      requires RowsLoaded(grid, data, objs, y, width) && AllPlaced(grid, r0, objs, y, width)
      requires forall c :: 0 <= c < x ==> Loads(r0[c], data[y][c], objs, Vector(c, y))
      requires blockCount == LiveBlocks(objs)
      modifies this`objs, this`blockCount
      ensures |row| == x + 1 && RowsLoaded(grid, data, objs, y, width) && AllPlaced(grid, row, objs, y, width)
      ensures forall c :: 0 <= c <= x ==> Loads(row[c], data[y][c], objs, Vector(c, y))
      ensures blockCount == old(blockCount) + (if Decode(data[y][x]).BlockAt? then 1 else 0)
      ensures blockCount == LiveBlocks(objs)
    {
      ghost var o0 := objs;
      var o := LoadObject(data, Vector(x, y));
      if o.Some? {
        row := r0 + [Some(|objs|)];
        objs := objs + [o.value];
        SpawnFresh(Decode(data[y][x]), Vector(x, y));
        LiveBlocksSnoc(o0, o.value);
      } else {
        row := r0 + [None];
      }
      CellAppended(grid, data, o0, r0, objs, row, y, x, width);
    }

    /** clearLevel: after the last level every cell is emptied; no object is left. */
    method ClearLevel()
      requires Valid() && Won()
      modifies this`grid, this`objs
      ensures Valid() && objs == []
      ensures forall y, x :: 0 <= y < height && 0 <= x < width ==> grid[y][x].None?
    {
      var x := 0;
      while x < width
        invariant 0 <= x <= width && Rect(grid, width, height)
        invariant forall r, c :: 0 <= r < height && 0 <= c < x ==> grid[r][c].None?
      {
        var y := 0;
        while y < height
          invariant 0 <= y <= height && Rect(grid, width, height)
          invariant forall r, c :: 0 <= r < height && 0 <= c < x ==> grid[r][c].None?
          invariant forall r :: 0 <= r < y ==> grid[r][x].None?
        {
          grid := Set(grid, Vector(x, y), None);
          y := y + 1;
        }
        x := x + 1;
      }
      objs := [];
    }

    /** The level has been won long enough ago for the game to move on. */
    predicate Won()
      reads this`winTime, this`time
    {
      AdvanceDue(winTime, time)
    }

    /** The end of tick: a level won long enough ago gives way to the next one, or, after the last, to an empty board. */
    method Advance()
      requires Valid()
      modifies this`level, this`grid, this`objs, this`blockCount, this`timeSinceLoad, this`timeSinceMove,
               this`winTime, this`moves
      ensures Valid()
      ensures !old(Won()) ==> unchanged(this)
      ensures old(Won()) && old(level) + 1 < |levels| ==> level == old(level) + 1 && Loaded()
      ensures old(Won()) && old(level) + 1 >= |levels| ==>
        level == old(level) && objs == [] && winTime == old(winTime)
        && forall y, x :: 0 <= y < height && 0 <= x < width ==> grid[y][x].None?
    {
      if Won() {
        if level < |levels| - 1 {
          LoadLevel(level + 1);
        } else {
          ClearLevel();
        }
      }
    }

    /**
     * tick: drop a selection whose cell no longer holds a swappable object,
     * tick every object, let objects fall every laser time since the last
     * swap, advance the clocks, and move on when the level is won.
     */
    method Tick()
      requires Valid()
      modifies this`level, this`grid, this`objs, this`blockCount, this`time, this`timeSinceLoad,
               this`timeSinceMove, this`winTime, this`selected, this`moves
      ensures Valid()
      ensures time == old(time) + 1
      ensures selected == (if old(selected).Some? && !old(Movable(grid, objs, selected.value)) then None
                           else old(selected))
      ensures var cadence := old(timeSinceMove) > 0 && old(timeSinceMove) % LaserTime == 0;
        !AdvanceDue(old(winTime), time) ==>
          && level == old(level) && moves == old(moves)
          && timeSinceLoad == old(timeSinceLoad) + 1 && timeSinceMove == old(timeSinceMove) + 1
          && (winTime == old(winTime) || (old(winTime) <= 0 && winTime == old(time)))
          && (!cadence ==> Stays(old(objs), objs))
          && (cadence ==> Dropped(old(objs), objs))
          && (!cadence && Idle(old(objs), old(time)) ==> objs == old(objs) && grid == old(grid))
          && (!cadence ==> forall j :: 0 <= j < old(|objs|) && Ready(old(grid), old(objs), width, height, j, old(time)) ==>
                SegmentAt(grid, objs, Step(old(objs[j].pos), old(objs[j].kind.dir))))
      ensures AdvanceDue(old(winTime), time) && old(level) + 1 < |levels| ==> level == old(level) + 1 && Loaded()
      ensures AdvanceDue(old(winTime), time) && old(level) + 1 >= |levels| ==>
        level == old(level) && objs == [] && forall y, x :: 0 <= y < height && 0 <= x < width ==> grid[y][x].None?
    {
      DropSelection();
      ghost var sel, lvl := selected, level;
      TickBoard();
      time := time + 1;
      timeSinceLoad := timeSinceLoad + 1;
      timeSinceMove := timeSinceMove + 1;
      assert Valid() && selected == sel && level == lvl;
      assert Won() == AdvanceDue(old(winTime), time);
      Advance();
    }

    /**
     * The board half of tick: every object ticks, then, every laser time since
     * the last swap, the gravity pass runs. Outside a gravity tick no object
     * moves, and when nothing is due nothing changes.
     */
    method TickBoard()
      requires Valid()
      modifies this`objs, this`grid, this`blockCount, this`winTime
      ensures Valid()
      ensures winTime == old(winTime) || (old(winTime) <= 0 && winTime == time)
      ensures !(timeSinceMove > 0 && timeSinceMove % LaserTime == 0) ==> Stays(old(objs), objs)
      ensures timeSinceMove > 0 && timeSinceMove % LaserTime == 0 ==> Dropped(old(objs), objs)
      ensures !(timeSinceMove > 0 && timeSinceMove % LaserTime == 0) && Idle(old(objs), time) ==>
        objs == old(objs) && grid == old(grid)
      ensures !(timeSinceMove > 0 && timeSinceMove % LaserTime == 0) ==>
        forall j :: 0 <= j < old(|objs|) && Ready(old(grid), old(objs), width, height, j, time) ==>
          SegmentAt(grid, objs, Step(old(objs[j].pos), old(objs[j].kind.dir)))
    {
      TickObjects();
      if timeSinceMove > 0 && timeSinceMove % LaserTime == 0 {
        ghost var mid := objs;
        Gravity();
        StaysSettled(old(objs), mid, objs);
      }
    }

    /** The first step of tick: a selection whose cell no longer holds a swappable object is dropped. */
    method DropSelection()
      requires Valid()
      modifies this`selected
      ensures Valid()
      ensures selected == (if old(selected).Some? && !Movable(grid, objs, old(selected).value) then None
                           else old(selected))
    {
      if selected.Some? {
        var sel := Get(grid, selected.value);
        assert CellOk(grid, objs, selected.value.y, selected.value.x);
        if sel.None? || !Swappable(objs[sel.value]) {
          selected := None;
        }
      }
    }

    /** The HUD buttons: restart on the last cell, skip ahead on the one before, go back on the one before that. */
    method HudTouch(x: int)
      requires Valid()
      modifies this`level, this`grid, this`objs, this`blockCount, this`timeSinceLoad, this`timeSinceMove,
               this`winTime, this`moves
      ensures Valid()
      ensures x == width - 1 ==> level == old(level) && Loaded()
      ensures x == width - 2 && old(level) + 1 < |levels| ==> level == old(level) + 1 && Loaded()
      ensures x == width - 3 && old(level) > 0 ==> level == old(level) - 1 && Loaded()
      ensures x != width - 1 && !(x == width - 2 && old(level) + 1 < |levels|) && !(x == width - 3 && old(level) > 0)
        ==> unchanged(this)
    {
      if x == width - 1 {
        LoadLevel(level);
      } else if x == width - 2 && level < |levels| - 1 {
        LoadLevel(level + 1);
      } else if x == width - 3 && level > 0 {
        LoadLevel(level - 1);
      }
    }

    /**
     * touch: a touch below the grid goes to the HUD. On the grid, only a
     * swappable object reacts: with nothing selected it is selected; touched
     * again it is deselected; next to the selected cell the two are swapped
     * and the selection is dropped; anywhere else nothing happens.
     */
    method Touch(x: int, y: int)
      requires Valid() && 0 <= x < width && 0 <= y <= height
      modifies this`selected, this`level, this`grid, this`objs, this`blockCount, this`timeSinceLoad,
               this`timeSinceMove, this`winTime, this`moves
      ensures Valid()
      ensures y == height ==> selected == old(selected) && time == old(time)
      ensures y == height && x == width - 1 ==> level == old(level) && Loaded()
      ensures y == height && x == width - 2 && old(level) + 1 < |levels| ==> level == old(level) + 1 && Loaded()
      ensures y == height && x == width - 3 && old(level) > 0 ==> level == old(level) - 1 && Loaded()
      ensures (y == height && x != width - 1 && !(x == width - 2 && old(level) + 1 < |levels|)
               && !(x == width - 3 && old(level) > 0)) ==> unchanged(this)
      ensures y < height ==>
        level == old(level) && timeSinceLoad == old(timeSinceLoad)
        && blockCount == old(blockCount) && winTime == old(winTime)
      ensures y < height && !old(Movable(grid, objs, Vector(x, y))) ==> unchanged(this)
      ensures y < height && old(Movable(grid, objs, Vector(x, y))) && old(selected).None? ==>
        selected == Some(Vector(x, y)) && objs == old(objs) && grid == old(grid)
        && moves == old(moves) && timeSinceMove == old(timeSinceMove)
      ensures y < height && old(Movable(grid, objs, Vector(x, y))) && old(selected) == Some(Vector(x, y)) ==>
        selected.None? && objs == old(objs) && grid == old(grid)
        && moves == old(moves) && timeSinceMove == old(timeSinceMove)
      ensures (y < height && old(Movable(grid, objs, Vector(x, y))) && old(selected).Some?
               && old(selected.value) != Vector(x, y) && !Adjacent(old(selected.value), Vector(x, y)))
        ==> unchanged(this)
      ensures (y < height && old(Movable(grid, objs, Vector(x, y))) && old(selected).Some?
               && Adjacent(old(selected.value), Vector(x, y))) ==>
        var p1, p2 := old(selected.value), Vector(x, y);
        selected.None?
        && (old(Movable(grid, objs, p1)) ==>
              var a, b := old(Get(grid, p1).value), old(Get(grid, p2).value);
              Get(grid, p1) == Some(b) && Get(grid, p2) == Some(a)
              && Retracts(Moved(Moved(old(objs), a, p2), b, p1), objs)
              && Unlinked(objs[a]) && Unlinked(objs[b])
              && (forall j :: j in Downstream(old(objs), a) && j != a ==> objs[j].destroyed)
              && (forall j :: j in Downstream(old(objs), b) && j != b ==> objs[j].destroyed)
              && (IsMirror(old(objs[a])) ==> Quiet(objs[a])) && (IsMirror(old(objs[b])) ==> Quiet(objs[b]))
              && timeSinceMove == 0 && moves == old(moves) + 1)
        && (!old(Movable(grid, objs, p1)) ==>
              objs == old(objs) && grid == old(grid) && timeSinceMove == old(timeSinceMove) && moves == old(moves))
    {
      if y >= height {
        HudTouch(x);
      } else {
        var v := Vector(x, y);
        var cell := Get(grid, v);
        assert CellOk(grid, objs, y, x);
        if cell.Some? && Swappable(objs[cell.value]) {
          if selected.None? {
            selected := Some(v);
          } else if v == selected.value {
            selected := None;
          } else if Adjacent(selected.value, v) {
            Swap(selected.value, v);
            selected := None;
          }
        }
      }
    }
  }

  /** `id` with its beam forgotten. */
  function CutChild(objs: seq<Obj>, id: nat): seq<Obj>
    requires id < |objs| && objs[id].kind.LaserObject?
  {
    objs[id := objs[id].(kind := objs[id].kind.(child := None))]
  }

  /** `id` with its target forgotten. */
  function CutHit(objs: seq<Obj>, id: nat): seq<Obj>
    requires id < |objs| && objs[id].kind.LaserObject?
  {
    objs[id := objs[id].(kind := objs[id].kind.(hitting := None))]
  }

  /** Mirror `id` gone dark. */
  function Darken(objs: seq<Obj>, id: nat): seq<Obj>
    requires id < |objs| && IsMirror(objs[id])
  {
    objs[id := objs[id].(kind := objs[id].kind.(role := Mirror(-1)))]
  }

  lemma ChildDownstream(objs: seq<Obj>, id: nat)
    requires id < |objs| && objs[id].kind.LaserObject? && objs[id].kind.child.Some?
    requires LinksOk(objs, id)
    ensures Downstream(objs, id) - {id} == Downstream(objs, objs[id].kind.child.value)
  {
  }

  lemma MarkRetracts(a: seq<Obj>, c: nat, b: seq<Obj>)
    requires c < |a| && IsLaser(a[c])
    requires !a[c].destroyed ==> Retracts(Mark(a, c), b)
    requires a[c].destroyed ==> b == a
    ensures Retracts(a, b)
  {
    if !a[c].destroyed {
      var m := Mark(a, c);
      assert Retracts(a, m) by {
        forall j | 0 <= j < |a|
          ensures RetractAt(a, m, j)
        {
        }
      }
      RetractsTrans(a, m, b);
    } else {
      RetractsRefl(a);
    }
  }

  /**
   * A source that has let go of its beam by the end of a retraction has lost
   * the whole beam: every segment downstream of it is destroyed.
   */
  lemma {:induction false} DownstreamDestroyed(a: seq<Obj>, b: seq<Obj>, x: nat)
    requires Retracts(a, b) && Pending(b, {}) && x < |a|
    requires b[x].kind.LaserObject? ==> b[x].kind.child.None?
    ensures forall j :: j in Downstream(a, x) && j != x ==> b[j].destroyed
    decreases |a| - x
  {
    if a[x].kind.LaserObject? && a[x].kind.child.Some? && x < a[x].kind.child.value < |a| {
      var c := a[x].kind.child.value;
      assert RetractAt(a, b, x);
      assert PendingAt(b, {}, c);
      DownstreamDestroyed(a, b, c);
    }
  }

  /**
   * An object that fell and let go of its beam has lost the beam it had
   * before the fall: moving changes no link, so its downstream is the same.
   */
  lemma FallUnlinks(a: seq<Obj>, b: seq<Obj>, id: nat, to: Vector)
    requires id < |a| && Retracts(Moved(a, id, to), b) && Pending(b, {}) && Unlinked(b[id])
    ensures forall j :: j in Downstream(a, id) && j != id ==> b[j].destroyed
  {
    DownstreamKinds(a, Moved(a, id, to), id);
    DownstreamDestroyed(Moved(a, id, to), b, id);
  }

  /** A mirror that has gone dark stays dark through a retraction. */
  lemma RetractsQuiet(a: seq<Obj>, b: seq<Obj>, x: nat)
    requires Retracts(a, b) && x < |a| && Quiet(a[x])
    ensures Quiet(b[x])
  {
    assert RetractAt(a, b, x);
  }

  lemma RetractsKeepDestroyed(a: seq<Obj>, b: seq<Obj>, s: set<nat>)
    requires Retracts(a, b)
    ensures forall j :: j in s && j < |a| && a[j].destroyed ==> b[j].destroyed
  {
    forall j | j in s && j < |a| && a[j].destroyed
      ensures b[j].destroyed
    {
      assert RetractAt(a, b, j);
    }
  }

  lemma CutChildLinks(g: Cells, objs: seq<Obj>, w: nat, h: nat, id: nat, pending: set<nat>)
    requires Consistent(g, objs, w, h) && id < |objs| && objs[id].kind.LaserObject? && Pending(objs, pending)
    requires objs[id].kind.child.Some? && objs[id].kind.child.value < |objs| ==>
      objs[objs[id].kind.child.value].destroyed
    ensures Consistent(g, CutChild(objs, id), w, h) && Pending(CutChild(objs, id), pending)
    ensures Weight(CutChild(objs, id)) == Weight(objs)
    ensures Retracts(objs, CutChild(objs, id))
  {
    var n := CutChild(objs, id);
    assert ObjOk(g, objs, w, h, id);
    RetouchConsistent(g, objs, w, h, id, n[id]);
    WeightUpdate(objs, id, n[id]);
    forall j | 0 <= j < |n|
      ensures PendingAt(n, pending, j) && RetractAt(objs, n, j)
    {
      assert PendingAt(objs, pending, j);
    }
  }

  lemma CutHitLinks(g: Cells, objs: seq<Obj>, w: nat, h: nat, id: nat, pending: set<nat>)
    requires Consistent(g, objs, w, h) && id < |objs| && objs[id].kind.LaserObject? && Pending(objs, pending)
    ensures Consistent(g, CutHit(objs, id), w, h) && Pending(CutHit(objs, id), pending)
    ensures Weight(CutHit(objs, id)) == Weight(objs) - (if objs[id].kind.hitting.Some? then 1 else 0)
    ensures objs[id].kind.hitting.Some? ==> objs[id].kind.hitting.value < |objs|
  {
    var n := CutHit(objs, id);
    assert ObjOk(g, objs, w, h, id);
    RetouchConsistent(g, objs, w, h, id, n[id]);
    WeightUpdate(objs, id, n[id]);
    forall j | 0 <= j < |n|
      ensures PendingAt(n, pending, j)
    {
      assert PendingAt(objs, pending, j);
    }
  }

  lemma ReleaseRetracts(a: seq<Obj>, b: seq<Obj>, c: seq<Obj>, id: nat)
    requires id < |a| && a[id].kind.LaserObject? && b == CutHit(a, id) && Retracts(b, c)
    requires a[id].kind.hitting.Some? && a[id].kind.hitting.value < |a| && IsMirror(a[a[id].kind.hitting.value])
      ==> Quiet(c[a[id].kind.hitting.value])
    ensures Retracts(a, c)
  {
    forall j | 0 <= j < |a|
      ensures RetractAt(a, c, j)
    {
      assert RetractAt(b, c, j);
      if a[j].kind.LaserObject? && a[j].kind.hitting.Some? && a[j].kind.hitting.value < |a| {
        var t := a[j].kind.hitting.value;
        assert RetractAt(b, c, t);
      }
    }
  }

  lemma DarkenMirror(g: Cells, objs: seq<Obj>, w: nat, h: nat, id: nat, pending: set<nat>)
    requires Consistent(g, objs, w, h) && id < |objs| && IsMirror(objs[id]) && Pending(objs, pending)
    ensures Consistent(g, Darken(objs, id), w, h) && Pending(Darken(objs, id), pending)
    ensures Weight(Darken(objs, id)) == Weight(objs)
    ensures Retracts(objs, Darken(objs, id))
  {
    var n := Darken(objs, id);
    assert ObjOk(g, objs, w, h, id);
    RetouchConsistent(g, objs, w, h, id, n[id]);
    WeightUpdate(objs, id, n[id]);
    forall j | 0 <= j < |n|
      ensures PendingAt(n, pending, j) && RetractAt(objs, n, j)
    {
      assert PendingAt(objs, pending, j);
    }
  }

  /** A beam source's beam is standing. */
  ghost predicate LiveChild(objs: seq<Obj>, id: nat)
    requires id < |objs| && objs[id].kind.LaserObject?
  {
    objs[id].kind.child.Some? && objs[id].kind.child.value < |objs| && !objs[objs[id].kind.child.value].destroyed
  }

  function Linked(o: Obj, c: nat): Obj
    requires o.kind.LaserObject?
  {
    o.(kind := o.kind.(child := Some(c)))
  }

  /** A laser segment at `p` whose beam continues into `next`. */
  function Segment(p: Vector, d: Dir, color: int, time: int, next: Option<nat>): Obj {
    Obj(p, false, false, LaserObject(Laser(time), d, color, next, None))
  }

  /** The `k` segments of a beam laid from `p` along `d`, numbered from `base`, each the child of the one before. */
  ghost function Beam(p: Vector, d: Dir, color: int, time: int, base: nat, k: nat): (r: seq<Obj>)
    ensures |r| == k
    decreases k
  {
    if k == 0 then []
    else [Segment(p, d, color, time, if k > 1 then Some(base + 1) else None)]
         + Beam(Step(p, d), d, color, time, base + 1, k - 1)
  }

  /** Segment `i` of a beam stands `i` cells along and links to segment `i + 1`, the last to nothing. */
  lemma {:induction false} BeamAt(p: Vector, d: Dir, color: int, time: int, base: nat, k: nat, i: nat)
    requires i < k
    ensures Beam(p, d, color, time, base, k)[i]
      == Segment(Ahead(p, d, i), d, color, time, if i + 1 < k then Some(base + i + 1) else None)
    decreases k
  {
    if i > 0 {
      BeamAt(Step(p, d), d, color, time, base + 1, k - 1, i - 1);
      assert Ahead(Step(p, d), d, i - 1) == Ahead(p, d, i);
    }
  }

  /** The arena after the first source strikes the occupant of the next cell; otherwise unchanged. */
  ghost function Struck(objs: seq<Obj>, g: Cells, w: nat, h: nat, id: nat, first: bool, time: int): seq<Obj>
    requires Rect(g, w, h) && id < |objs| && objs[id].kind.LaserObject?
  {
    var src := objs[id];
    var next := Step(src.pos, src.kind.dir);
    if first && InBounds(w, h, next) && Get(g, next).Some? && Get(g, next).value != id
       && Get(g, next).value < |objs|
    then
      var t := Get(g, next).value;
      objs[t := Hit(objs[t], src.kind.color, time)][id := src.(kind := src.kind.(hitting := Some(t)))]
    else objs
  }

  /**
   * The arena and grid after source `id` emits: nothing happens while its beam
   * stands; otherwise the beam fills the free run of cells ahead, its segments
   * numbered from the end of the arena and each the child of the one before;
   * with no free cell ahead, a first emit strikes the occupant (Struck).
   */
  ghost predicate Emitted(a: seq<Obj>, g: Cells, b: seq<Obj>, g': Cells, w: nat, h: nat, id: nat, first: bool,
                          time: int)
    requires Rect(g, w, h) && id < |a| && a[id].kind.LaserObject?
  {
    var src := a[id];
    var next := Step(src.pos, src.kind.dir);
    var k := FreeRun(g, w, h, next, src.kind.dir);
    if LiveChild(a, id) then b == a && g' == g
    else if k > 0 then
      b == a[id := Linked(src, |a|)] + Beam(next, src.kind.dir, src.kind.color, time, |a|, k)
      && g' == Paint(g, w, h, next, src.kind.dir, |a|, k)
    else g' == g && b == Struck(a, g, w, h, id, first, time)
  }

  /** A fading block is left alone by an emit: a struck fading block does not react. */
  lemma EmittedKeepsFading(a: seq<Obj>, g: Cells, b: seq<Obj>, g': Cells, w: nat, h: nat, id: nat, first: bool,
                           time: int)
    requires Rect(g, w, h) && id < |a| && a[id].kind.LaserObject?
    requires Emitted(a, g, b, g', w, h, id, first, time)
    ensures |a| <= |b|
    ensures forall j :: 0 <= j < |a| && j != id && a[j].kind.Block? && Fading(a[j]) ==> b[j] == a[j]
  {
  }

  lemma SpawnConsistent(g: Cells, objs: seq<Obj>, w: nat, h: nat, id: nat, seg: Obj)
    requires Consistent(g, objs, w, h) && Pending(objs, {}) && id < |objs| && !objs[id].destroyed
    requires objs[id].kind.LaserObject?
    requires !LiveChild(objs, id)
    requires InBounds(w, h, seg.pos) && Get(g, seg.pos).None? && IsLaser(seg) && !seg.destroyed
    requires seg.kind.child.None? && seg.kind.hitting.None?
    ensures var n := objs[id := Linked(objs[id], |objs|)] + [seg];
      Consistent(Set(g, seg.pos, Some(|objs|)), n, w, h) && Pending(n, {})
  {
    var N := |objs|;
    var n := objs[id := Linked(objs[id], N)] + [seg];
    var g' := Set(g, seg.pos, Some(N));
    assert Rect(g', w, h);
    forall y, x | 0 <= y < h && 0 <= x < w
      ensures CellOk(g', n, y, x)
    {
      assert CellOk(g, objs, y, x);
    }
    forall j | 0 <= j < |n|
      ensures ObjOk(g', n, w, h, j) && PendingAt(n, {}, j)
    {
      if j < N {
        assert ObjOk(g, objs, w, h, j) && PendingAt(objs, {}, j);
        if !objs[j].destroyed {
          assert objs[j].pos != seg.pos;
        }
      }
    }
  }

  lemma StrikeConsistent(g: Cells, objs: seq<Obj>, w: nat, h: nat, id: nat, t: nat, time: int)
    requires Consistent(g, objs, w, h) && Pending(objs, {}) && id < |objs| && t < |objs| && t != id
    requires objs[id].kind.LaserObject? && !objs[id].destroyed
    ensures var n := objs[t := Hit(objs[t], objs[id].kind.color, time)];
      var n' := n[id := n[id].(kind := n[id].kind.(hitting := Some(t)))];
      Consistent(g, n', w, h) && Pending(n', {})
  {
    var n := objs[t := Hit(objs[t], objs[id].kind.color, time)];
    assert ObjOk(g, objs, w, h, t);
    RetouchConsistent(g, objs, w, h, t, n[t]);
    assert ObjOk(g, n, w, h, id);
    RetouchConsistent(g, n, w, h, id, n[id].(kind := n[id].kind.(hitting := Some(t))));
    var n' := n[id := n[id].(kind := n[id].kind.(hitting := Some(t)))];
    forall j | 0 <= j < |n'|
      ensures PendingAt(n', {}, j)
    {
      assert PendingAt(objs, {}, j);
    }
  }

  /** One more segment in front of a beam: the beam from the next cell, laid by the new segment, completes it. */
  lemma BeamGrows(a: seq<Obj>, seg: Obj, objs: seq<Obj>, g: Cells, g0: Cells, w: nat, h: nat,
                  next: Vector, d: Dir, color: int, time: int, c: nat, k: nat)
    requires |a| == c && Rect(g0, w, h) && InBounds(w, h, next) && Get(g0, next).None?
    requires k == FreeRun(g0, w, h, next, d)
    requires seg == Segment(next, d, color, time, None)
    requires var k' := FreeRun(Set(g0, next, Some(c)), w, h, Step(next, d), d);
      k' == FreeRun(g0, w, h, Step(next, d), d)
      && if k' > 0 then
        objs == (a + [seg])[c := Linked(seg, c + 1)] + Beam(Step(next, d), d, color, time, c + 1, k')
        && g == Paint(Set(g0, next, Some(c)), w, h, Step(next, d), d, c + 1, k')
      else objs == a + [seg] && g == Set(g0, next, Some(c))
    ensures k > 0
    ensures objs == a + Beam(next, d, color, time, c, k) && g == Paint(g0, w, h, next, d, c, k)
  {
    var k' := FreeRun(Set(g0, next, Some(c)), w, h, Step(next, d), d);
    assert k == k' + 1;
    if k' > 0 {
      assert (a + [seg])[c := Linked(seg, c + 1)] == a + [Linked(seg, c + 1)];
    }
  }

  /** The grid with cell `p` emptied if it holds `id`. */
  function Vacate(g: Cells, p: Vector, id: nat): (r: Cells)
    requires 0 <= p.y < |g| && 0 <= p.x < |g[p.y]|
  {
    if Get(g, p) == Some(id) then Set(g, p, None) else g
  }

  predicate Vacant(g: Cells, q: Vector) {
    0 <= q.y < |g| && 0 <= q.x < |g[q.y]| && Get(g, q).None?
  }

  lemma GroundedAt(objs: seq<Obj>, id: nat)
    requires Grounded(objs) && id < |objs| && objs[id].hasGravity
    ensures !IsLaser(objs[id])
  {
  }

  /** `objs` with object `id` standing at `to`. */
  function Moved(objs: seq<Obj>, id: nat, to: Vector): seq<Obj>
    requires id < |objs|
  {
    objs[id := objs[id].(pos := to)]
  }

  /** The cell below is free for a falling object: empty, or holding a laser segment. */
  ghost predicate Open(g: Cells, objs: seq<Obj>, q: Vector) {
    0 <= q.y < |g| && 0 <= q.x < |g[q.y]|
    && (Get(g, q).None? || (Get(g, q).value < |objs| && IsLaser(objs[Get(g, q).value])))
  }

  lemma GroundedMark(objs: seq<Obj>, id: nat)
    requires id < |objs| && Grounded(objs)
    ensures Grounded(Mark(objs, id))
  {
    forall j | 0 <= j < |objs| && IsLaser(Mark(objs, id)[j])
      ensures !Mark(objs, id)[j].hasGravity
    {
      assert IsLaser(objs[j]);
    }
  }

  lemma RetractsGrounded(a: seq<Obj>, b: seq<Obj>)
    requires Retracts(a, b) && Grounded(a)
    ensures Grounded(b)
  {
    forall j | 0 <= j < |b| && IsLaser(b[j])
      ensures !b[j].hasGravity
    {
      assert RetractAt(a, b, j);
      assert IsLaser(a[j]);
    }
  }

  /** A retracting cascade only empties cells: a cell that was empty stays empty. */
  lemma EmptyStaysEmpty(g: Cells, a: seq<Obj>, g': Cells, b: seq<Obj>, w: nat, h: nat, q: Vector)
    requires Consistent(g, a, w, h) && Consistent(g', b, w, h) && Retracts(a, b)
    requires InBounds(w, h, q) && Get(g, q).None?
    ensures Get(g', q).None?
  {
    forall k | 0 <= k < |b| && !b[k].destroyed
      ensures b[k].pos != q
    {
      assert RetractAt(a, b, k);
      assert ObjOk(g, a, w, h, k);
    }
    assert CellOk(g', b, q.y, q.x);
  }

  /** Moving a live object onto an empty cell keeps the grid and arena in agreement. */
  lemma MoveConsistent(g: Cells, objs: seq<Obj>, w: nat, h: nat, id: nat, to: Vector)
    requires Consistent(g, objs, w, h) && Pending(objs, {}) && Grounded(objs)
    requires id < |objs| && !objs[id].destroyed && InBounds(w, h, to) && Get(g, to).None?
    ensures InBounds(w, h, objs[id].pos) && |g| == h && |g[objs[id].pos.y]| == w
    ensures var g' := Set(Set(g, objs[id].pos, None), to, Some(id));
      var n := Moved(objs, id, to);
      Consistent(g', n, w, h) && Pending(n, {}) && Grounded(n)
  {
    assert ObjOk(g, objs, w, h, id);
    var n := Moved(objs, id, to);
    var g1 := Set(g, objs[id].pos, None);
    var g' := Set(g1, to, Some(id));
    assert Rect(g', w, h);
    forall y, x | 0 <= y < h && 0 <= x < w
      ensures CellOk(g', n, y, x)
    {
      assert CellOk(g, objs, y, x);
    }
    forall k | 0 <= k < |n|
      ensures ObjOk(g', n, w, h, k) && PendingAt(n, {}, k)
    {
      assert ObjOk(g, objs, w, h, k) && PendingAt(objs, {}, k);
      if k != id && !n[k].destroyed {
        assert CellOk(g, objs, objs[k].pos.y, objs[k].pos.x);
      }
    }
    forall k | 0 <= k < |n| && IsLaser(n[k])
      ensures !n[k].hasGravity
    {
      assert IsLaser(objs[k]);
    }
  }

  lemma RetractsMoved(a: seq<Obj>, b: seq<Obj>, id: nat, to: Vector)
    requires Retracts(a, b) && id < |a|
    ensures Retracts(Moved(a, id, to), Moved(b, id, to))
  {
    var a', b' := Moved(a, id, to), Moved(b, id, to);
    forall j | 0 <= j < |a'|
      ensures RetractAt(a', b', j)
    {
      assert RetractAt(a, b, j);
      if a[j].kind.LaserObject? && a[j].kind.hitting.Some? && a[j].kind.hitting.value < |a| {
        assert RetractAt(a, b, a[j].kind.hitting.value);
      }
    }
  }

  // ---------------------------------------------------------------------------
  // The gravity pass

  /** Cell `p` is among those the pass has visited when it stands at column `x`, row `y`. */
  predicate Visited(p: Vector, w: nat, h: nat, x: int, y: int) {
    InBounds(w, h, p) && (p.x < x || (p.x == x && y < p.y))
  }

  /** Object `j` is where it was, or fell one row from a visited cell; otherwise it only retracted. */
  ghost predicate FellAt(a: seq<Obj>, b: seq<Obj>, j: nat, w: nat, h: nat, x: int, y: int)
    requires j < |a| == |b|
  {
    StepOk(a[j].(pos := b[j].pos), b[j])
    && (b[j].pos == a[j].pos
        || (b[j].pos == Step(a[j].pos, Down) && a[j].hasGravity && !a[j].destroyed && Visited(a[j].pos, w, h, x, y)))
  }

  ghost predicate Fell(a: seq<Obj>, b: seq<Obj>, w: nat, h: nat, x: int, y: int) {
    |a| == |b| && forall j :: 0 <= j < |a| ==> FellAt(a, b, j, w, h, x, y)
  }

  /** After a gravity pass: each object stayed or fell exactly one row, and only objects with gravity fell. */
  ghost predicate Settled(a: seq<Obj>, b: seq<Obj>) {
    |a| == |b| && forall j :: 0 <= j < |a| ==> SettledAt(a, b, j)
  }

  ghost predicate SettledAt(a: seq<Obj>, b: seq<Obj>, j: nat)
    requires j < |a| == |b|
  {
    StepOk(a[j].(pos := b[j].pos), b[j])
    && (b[j].pos == a[j].pos || (b[j].pos == Step(a[j].pos, Down) && a[j].hasGravity && !a[j].destroyed))
  }

  lemma FellRefl(a: seq<Obj>, w: nat, h: nat)
    ensures Fell(a, a, w, h, 0, h - 1)
  {
    var y := h - 1;
    forall j | 0 <= j < |a|
      ensures FellAt(a, a, j, w, h, 0, y)
    {
      assert a[j].(pos := a[j].pos) == a[j];
    }
  }

  lemma FellWeaken(a: seq<Obj>, b: seq<Obj>, w: nat, h: nat, x: int, y: int, x': int, y': int)
    requires Fell(a, b, w, h, x, y)
    requires x < x' || (x == x' && y' <= y)
    ensures Fell(a, b, w, h, x', y')
  {
    forall j | 0 <= j < |a|
      ensures FellAt(a, b, j, w, h, x', y')
    {
      assert FellAt(a, b, j, w, h, x, y);
    }
  }

  /** Visiting cell (x, y): its object falls at most once, all others only retract. */
  lemma FellStep(o: seq<Obj>, a: seq<Obj>, b: seq<Obj>, id: nat, w: nat, h: nat, x: int, y: int)
    requires Fell(o, a, w, h, x, y) && |b| == |a| && id < |a| && a[id].pos == Vector(x, y) && InBounds(w, h, a[id].pos)
    requires !a[id].destroyed && a[id].hasGravity
    requires Retracts(Moved(a, id, b[id].pos), b)
    requires b[id].pos == a[id].pos || b[id].pos == Step(a[id].pos, Down)
    ensures Fell(o, b, w, h, x, y - 1)
  {
    var y1 := y - 1;
    forall j | 0 <= j < |o|
      ensures FellAt(o, b, j, w, h, x, y1)
    {
      assert FellAt(o, a, j, w, h, x, y);
      assert RetractAt(Moved(a, id, b[id].pos), b, j);
    }
  }

  lemma FellSettled(a: seq<Obj>, b: seq<Obj>, w: nat, h: nat)
    requires Fell(a, b, w, h, w, h - 1)
    ensures Settled(a, b)
  {
    forall j | 0 <= j < |a|
      ensures SettledAt(a, b, j)
    {
      assert FellAt(a, b, j, w, h, w, h - 1);
    }
  }

  // ---------------------------------------------------------------------------
  // Ticks: objects never move while they tick

  /** Object `j` is where it was, and stays destroyed if it was. */
  ghost predicate StaysAt(a: seq<Obj>, b: seq<Obj>, j: nat)
    requires j < |a| && j < |b|
  {
    b[j].pos == a[j].pos && (a[j].destroyed ==> b[j].destroyed)
  }

  /** Every object of `a` is still in `b`, in the same place; new objects may have been added. */
  ghost predicate Stays(a: seq<Obj>, b: seq<Obj>) {
    |a| <= |b| && forall j :: 0 <= j < |a| ==> StaysAt(a, b, j)
  }

  /** A tick with a gravity pass: every object of `a` is where it was or one row lower, and stays destroyed if it was. */
  ghost predicate Dropped(a: seq<Obj>, b: seq<Obj>) {
    |a| <= |b| && forall j :: 0 <= j < |a| ==>
      (b[j].pos == a[j].pos || b[j].pos == Step(a[j].pos, Down)) && (a[j].destroyed ==> b[j].destroyed)
  }

  lemma StaysSettled(a: seq<Obj>, m: seq<Obj>, b: seq<Obj>)
    requires Stays(a, m) && Settled(m, b)
    ensures Dropped(a, b)
  {
    forall j | 0 <= j < |a|
      ensures (b[j].pos == a[j].pos || b[j].pos == Step(a[j].pos, Down)) && (a[j].destroyed ==> b[j].destroyed)
    {
      assert StaysAt(a, m, j) && SettledAt(m, b, j);
    }
  }

  lemma StaysRefl(a: seq<Obj>)
    ensures Stays(a, a)
  {
    forall j | 0 <= j < |a|
      ensures StaysAt(a, a, j)
    {
    }
  }

  lemma StaysTrans(a: seq<Obj>, b: seq<Obj>, c: seq<Obj>)
    requires Stays(a, b) && Stays(b, c)
    ensures Stays(a, c)
  {
    forall j | 0 <= j < |a|
      ensures StaysAt(a, c, j)
    {
      assert StaysAt(a, b, j) && StaysAt(b, c, j);
    }
  }

  /** A retraction never touches a block. */
  lemma RetractsKeepBlocks(a: seq<Obj>, b: seq<Obj>)
    requires Retracts(a, b)
    ensures forall j :: 0 <= j < |a| && a[j].kind.Block? ==> b[j] == a[j]
  {
    forall j | 0 <= j < |a| && a[j].kind.Block?
      ensures b[j] == a[j]
    {
      assert RetractAt(a, b, j);
    }
  }

  lemma RetractsStays(a: seq<Obj>, b: seq<Obj>)
    requires Retracts(a, b)
    ensures Stays(a, b)
  {
    forall j | 0 <= j < |a|
      ensures StaysAt(a, b, j)
    {
      assert RetractAt(a, b, j);
    }
  }

  /** The cell holds an object the player may pick up. */
  ghost predicate Movable(g: Cells, objs: seq<Obj>, p: Vector) {
    0 <= p.y < |g| && 0 <= p.x < |g[p.y]| && Get(g, p).Some? && Get(g, p).value < |objs|
    && Swappable(objs[Get(g, p).value])
  }

  /** A level won at `winTime` gives way to the next once the advance delay has passed by `time`. */
  predicate AdvanceDue(winTime: int, time: int) {
    winTime > 0 && time - winTime > LevelAdvanceTime
  }

  /** No object on the board is due to act at `time`. */
  ghost predicate Idle(objs: seq<Obj>, time: int) {
    forall j :: 0 <= j < |objs| && !objs[j].destroyed ==> !Due(objs[j], time)
  }

  /** Cell `p` comes before column `x`, row `y` in the column-by-column, top-to-bottom order of the tick pass. */
  predicate Before(p: Vector, x: int, y: int) {
    p.x < x || (p.x == x && p.y < y)
  }

  /** A block on the board whose fade is over: its next tick destroys it. */
  predicate DueBlock(o: Obj, time: int) {
    LiveBlock(o) && Due(o, time)
  }

  /** Whether an object's tick acts at `time`. */
  predicate Due(o: Obj, time: int) {
    match o.kind
    case Block(_, fadeStart) => fadeStart > 0 && time - fadeStart > FadeTime
    case Boulder => false
    case LaserObject(role, _, _, _, _) =>
      match role
      case Laser(creationTime) => time - creationTime > LaserTime
      case Emitter => time > LaserTime
      case Mirror(hitTime) => hitTime > 0 && time - hitTime > LaserTime
  }

  /** Cell `q` holds a live laser segment. */
  ghost predicate SegmentAt(g: Cells, objs: seq<Obj>, q: Vector) {
    0 <= q.y < |g| && 0 <= q.x < |g[q.y]| && Get(g, q).Some? && Get(g, q).value < |objs|
    && IsLaser(objs[Get(g, q).value]) && !objs[Get(g, q).value].destroyed
  }

  /** Source `j` is due, has no live beam, and the cell ahead of it is on the grid and empty. */
  ghost predicate Ready(g: Cells, objs: seq<Obj>, w: nat, h: nat, j: nat, time: int) {
    j < |objs| && !objs[j].destroyed && objs[j].kind.LaserObject? && Due(objs[j], time) && !LiveChild(objs, j)
    && InBounds(w, h, Step(objs[j].pos, objs[j].kind.dir)) && Holds(g, Step(objs[j].pos, objs[j].kind.dir), None)
  }

  /** Source `j` has not ticked yet: it is as it was, still without a live beam, and the cell ahead is empty or lit. */
  ghost predicate Waiting(g: Cells, objs: seq<Obj>, j: nat, o: Obj) {
    j < |objs| && objs[j] == o && o.kind.LaserObject? && !LiveChild(objs, j)
    && (Holds(g, Step(o.pos, o.kind.dir), None) || SegmentAt(g, objs, Step(o.pos, o.kind.dir)))
  }

  /**
   * What the tick of object `id` leaves alone: a live segment stays in its
   * cell, an empty cell stays empty or gets a segment, another due source is
   * as it was, and a source without a live beam still has none.
   */
  ghost predicate Spares(g: Cells, a: seq<Obj>, g': Cells, b: seq<Obj>, w: nat, h: nat, id: nat, time: int)
    requires Rect(g, w, h)
  {
    && |a| <= |b| && Rect(g', w, h)
    && (forall q :: SegmentAt(g, a, q) ==> SegmentAt(g', b, q) && Get(g', q) == Get(g, q))
    && (forall q :: InBounds(w, h, q) && Get(g, q).None? ==> Get(g', q).None? || SegmentAt(g', b, q))
    && (forall j :: 0 <= j < |a| && j != id && a[j].kind.LaserObject? && Due(a[j], time) ==> b[j] == a[j])
    && (forall j :: 0 <= j < |a| && j != id && a[j].kind.LaserObject? && !LiveChild(a, j) ==>
          b[j].kind.LaserObject? && !LiveChild(b, j))
  }

  /** A cell of the run from `p` is the run's cell at its offset. */
  lemma SegmentCell(q: Vector, p: Vector, d: Dir, k: int)
    requires InSegment(q, p, d, k)
    ensures q == Ahead(p, d, Offset(q, p, d))
  {
  }

  /** An emit that lays a beam over the free run spares the rest and lights the cell ahead. */
  lemma PaintSpares(g: Cells, a: seq<Obj>, g': Cells, b: seq<Obj>, w: nat, h: nat, id: nat, time: int)
    requires Consistent(g, a, w, h) && id < |a| && !a[id].destroyed && a[id].kind.LaserObject?
    requires var src := a[id]; var next := Step(src.pos, src.kind.dir);
      var k := FreeRun(g, w, h, next, src.kind.dir);
      k > 0 && b == a[id := Linked(src, |a|)] + Beam(next, src.kind.dir, src.kind.color, time, |a|, k)
      && g' == Paint(g, w, h, next, src.kind.dir, |a|, k)
    ensures Spares(g, a, g', b, w, h, id, time)
    ensures SegmentAt(g', b, Step(a[id].pos, a[id].kind.dir))
  {
    var src := a[id];
    var d := src.kind.dir;
    var next := Step(src.pos, d);
    var k := FreeRun(g, w, h, next, d);
    FreeRunCells(g, w, h, next, d);
    forall q | SegmentAt(g, a, q)
      ensures SegmentAt(g', b, q) && Get(g', q) == Get(g, q)
    {
      PaintCell(g, w, h, next, d, |a|, k, q);
      if InSegment(q, next, d, k) {
        SegmentCell(q, next, d, k);
      }
    }
    forall q | InBounds(w, h, q) && Get(g, q).None?
      ensures Get(g', q).None? || SegmentAt(g', b, q)
    {
      PaintCell(g, w, h, next, d, |a|, k, q);
      if InSegment(q, next, d, k) {
        BeamAt(next, d, src.kind.color, time, |a|, k, Offset(q, next, d));
      }
    }
    forall j | 0 <= j < |a| && j != id && a[j].kind.LaserObject? && !LiveChild(a, j)
      ensures b[j].kind.LaserObject? && !LiveChild(b, j)
    {
      assert ObjOk(g, a, w, h, j);
    }
    PaintCell(g, w, h, next, d, |a|, k, next);
    assert InSegment(next, next, d, k);
    BeamAt(next, d, src.kind.color, time, |a|, k, 0);
  }

  /** An emit with no free cell ahead only strikes the occupant: it spares the rest, and a segment ahead stays. */
  lemma StruckSpares(g: Cells, a: seq<Obj>, w: nat, h: nat, id: nat, time: int)
    requires Consistent(g, a, w, h) && id < |a| && !a[id].destroyed && a[id].kind.LaserObject?
    ensures Spares(g, a, g, Struck(a, g, w, h, id, true, time), w, h, id, time)
  {
    var b := Struck(a, g, w, h, id, true, time);
    forall j | 0 <= j < |a| && j != id && a[j].kind.LaserObject? && !LiveChild(a, j)
      ensures b[j].kind.LaserObject? && !LiveChild(b, j)
    {
      assert ObjOk(g, a, w, h, j);
    }
  }

  /** A block that vanishes spares every beam and source. */
  lemma VanishSpares(g: Cells, a: seq<Obj>, w: nat, h: nat, id: nat, time: int)
    requires Consistent(g, a, w, h) && id < |a| && !a[id].destroyed && a[id].kind.Block?
    ensures InBounds(w, h, a[id].pos)
    ensures Spares(g, a, Set(g, a[id].pos, None), Mark(a, id), w, h, id, time)
  {
    assert ObjOk(g, a, w, h, id);
    var b := Mark(a, id);
    forall j | 0 <= j < |a| && j != id && a[j].kind.LaserObject? && !LiveChild(a, j)
      ensures b[j].kind.LaserObject? && !LiveChild(b, j)
    {
      assert ObjOk(g, a, w, h, j);
    }
  }

  /**
   * The tick of live object `id`, as TickObject states it, spares the other
   * sources and beams; a due source with no live beam and an empty or lit
   * cell ahead on the grid has a segment ahead afterwards.
   */
  lemma TickSpares(g: Cells, a: seq<Obj>, g': Cells, b: seq<Obj>, w: nat, h: nat, id: nat, time: int)
    requires Consistent(g, a, w, h) && id < |a| && !a[id].destroyed
    requires !Due(a[id], time) ==> b == a && g' == g
    requires Due(a[id], time) && a[id].kind.LaserObject? ==> Emitted(a, g, b, g', w, h, id, true, time)
    requires Due(a[id], time) && a[id].kind.Block? ==>
      InBounds(w, h, a[id].pos) && b == Mark(a, id) && g' == Set(g, a[id].pos, None)
    ensures Spares(g, a, g', b, w, h, id, time)
    ensures a[id].kind.LaserObject? && Due(a[id], time) && !LiveChild(a, id) ==>
      var next := Step(a[id].pos, a[id].kind.dir);
      InBounds(w, h, next) && (Get(g, next).None? || SegmentAt(g, a, next)) ==> SegmentAt(g', b, next)
  {
    if !Due(a[id], time) || (a[id].kind.LaserObject? && LiveChild(a, id)) {
    } else if a[id].kind.Block? {
      VanishSpares(g, a, w, h, id, time);
    } else if a[id].kind.LaserObject? {
      var next := Step(a[id].pos, a[id].kind.dir);
      if FreeRun(g, w, h, next, a[id].kind.dir) > 0 {
        PaintSpares(g, a, g', b, w, h, id, time);
      } else {
        StruckSpares(g, a, w, h, id, time);
      }
    }
  }

  /**
   * One visit of the object pass, at column `x`, row `y`, where object `id`
   * ticked: sources visited before keep the segment ahead of them, the
   * source standing here gets one, and the sources still to come wait.
   */
  lemma TickStep(g0: Cells, o0: seq<Obj>, g1: Cells, o1: seq<Obj>, g2: Cells, o2: seq<Obj>,
                 w: nat, h: nat, id: nat, x: int, y: int, time: int)
    requires Consistent(g1, o1, w, h) && Stays(o0, o1) && id < |o1| && !o1[id].destroyed && o1[id].pos == Vector(x, y)
    requires forall j :: 0 <= j < |o0| && !o0[j].destroyed ==> InBounds(w, h, o0[j].pos)
    requires !Due(o1[id], time) ==> o2 == o1 && g2 == g1
    requires Due(o1[id], time) && o1[id].kind.LaserObject? ==> Emitted(o1, g1, o2, g2, w, h, id, true, time)
    requires Due(o1[id], time) && o1[id].kind.Block? ==>
      InBounds(w, h, o1[id].pos) && o2 == Mark(o1, id) && g2 == Set(g1, o1[id].pos, None)
    requires forall j :: 0 <= j < |o0| && Ready(g0, o0, w, h, j, time) ==>
      if Before(o0[j].pos, x, y) then SegmentAt(g1, o1, Step(o0[j].pos, o0[j].kind.dir))
      else Waiting(g1, o1, j, o0[j])
    ensures forall j :: 0 <= j < |o0| && Ready(g0, o0, w, h, j, time) ==>
      if Before(o0[j].pos, x, y + 1) then SegmentAt(g2, o2, Step(o0[j].pos, o0[j].kind.dir))
      else Waiting(g2, o2, j, o0[j])
  {
    TickSpares(g1, o1, g2, o2, w, h, id, time);
    forall j | 0 <= j < |o0| && Ready(g0, o0, w, h, j, time)
      ensures if Before(o0[j].pos, x, y + 1) then SegmentAt(g2, o2, Step(o0[j].pos, o0[j].kind.dir))
              else Waiting(g2, o2, j, o0[j])
    {
      if !Before(o0[j].pos, x, y) {
        assert Waiting(g1, o1, j, o0[j]);
        assert ObjOk(g1, o1, w, h, j);
        if o0[j].pos == Vector(x, y) {
          assert ObjOk(g1, o1, w, h, id);
          assert j == id;
        }
      }
    }
  }

  /** One visit of the object pass: a block whose fade was over is gone once its cell has been visited, and waits until then. */
  lemma FadeStep(o0: seq<Obj>, g1: Cells, o1: seq<Obj>, o2: seq<Obj>, w: nat, h: nat, cell: Option<nat>,
                 x: int, y: int, time: int)
    requires Consistent(g1, o1, w, h) && Stays(o0, o1) && Stays(o1, o2) && Holds(g1, Vector(x, y), cell)
    requires cell.None? ==> o2 == o1
    requires cell.Some? ==> cell.value < |o1| && |o1| <= |o2|
    requires cell.Some? && Due(o1[cell.value], time) && o1[cell.value].kind.Block? ==> o2[cell.value].destroyed
    requires cell.Some? ==> forall j :: 0 <= j < |o1| && j != cell.value && DueBlock(o1[j], time) ==> o2[j] == o1[j]
    requires forall j :: 0 <= j < |o0| && DueBlock(o0[j], time) ==>
      if Before(o0[j].pos, x, y) then o1[j].destroyed else o1[j] == o0[j]
    ensures forall j :: 0 <= j < |o0| && DueBlock(o0[j], time) ==>
      if Before(o0[j].pos, x, y + 1) then o2[j].destroyed else o2[j] == o0[j]
  {
    forall j | 0 <= j < |o0| && DueBlock(o0[j], time)
      ensures if Before(o0[j].pos, x, y + 1) then o2[j].destroyed else o2[j] == o0[j]
    {
      assert StaysAt(o1, o2, j);
      if !Before(o0[j].pos, x, y) {
        assert ObjOk(g1, o1, w, h, j);
        if o0[j].pos == Vector(x, y) {
          assert j == cell.value;
        } else if cell.Some? {
          assert CellOk(g1, o1, y, x);
          assert DueBlock(o1[j], time);
        }
      }
    }
  }

  /**
   * How far the object pass has got by column `x`, row `y`: the blocks whose
   * fade was over are gone behind it and untouched ahead of it; the sources
   * ready to emit have a segment ahead behind it and are waiting ahead of it.
   */
  ghost predicate Progress(g0: Cells, o0: seq<Obj>, g: Cells, objs: seq<Obj>, w: nat, h: nat, x: int, y: int,
                           time: int)
  {
    && |o0| <= |objs|
    && (forall j :: 0 <= j < |o0| && DueBlock(o0[j], time) ==>
          if Before(o0[j].pos, x, y) then objs[j].destroyed else objs[j] == o0[j])
    && (forall j :: 0 <= j < |o0| && Ready(g0, o0, w, h, j, time) ==>
          if Before(o0[j].pos, x, y) then SegmentAt(g, objs, Step(o0[j].pos, o0[j].kind.dir))
          else Waiting(g, objs, j, o0[j]))
  }

  /** The object pass starts with nothing behind it. */
  lemma ProgressStart(g0: Cells, o0: seq<Obj>, w: nat, h: nat, time: int)
    requires Consistent(g0, o0, w, h)
    ensures Progress(g0, o0, g0, o0, w, h, 0, 0, time)
  {
    forall j | 0 <= j < |o0| && !o0[j].destroyed
      ensures !Before(o0[j].pos, 0, 0)
    {
      assert ObjOk(g0, o0, w, h, j);
    }
  }

  /** The end of a column is the start of the next: every object stands above row `h`. */
  lemma ProgressColumn(g0: Cells, o0: seq<Obj>, g: Cells, objs: seq<Obj>, w: nat, h: nat, x: int, time: int)
    requires Consistent(g0, o0, w, h) && Progress(g0, o0, g, objs, w, h, x, h, time)
    ensures Progress(g0, o0, g, objs, w, h, x + 1, 0, time)
  {
    forall j | 0 <= j < |o0| && !o0[j].destroyed
      ensures Before(o0[j].pos, x, h) <==> Before(o0[j].pos, x + 1, 0)
    {
      assert ObjOk(g0, o0, w, h, j);
    }
  }

  /** After the last column every object is behind the pass. */
  lemma ProgressDone(g0: Cells, o0: seq<Obj>, g: Cells, objs: seq<Obj>, w: nat, h: nat, time: int)
    requires Consistent(g0, o0, w, h) && Progress(g0, o0, g, objs, w, h, w, 0, time)
    ensures forall j :: 0 <= j < |o0| && DueBlock(o0[j], time) ==> objs[j].destroyed
    ensures forall j :: 0 <= j < |o0| && Ready(g0, o0, w, h, j, time) ==>
      SegmentAt(g, objs, Step(o0[j].pos, o0[j].kind.dir))
  {
    forall j | 0 <= j < |o0| && !o0[j].destroyed
      ensures Before(o0[j].pos, w, 0)
    {
      assert ObjOk(g0, o0, w, h, j);
    }
  }

  /** One visit of the object pass, to an empty cell or to the cell of object `cell.value` as TickObject leaves it. */
  lemma VisitStep(g0: Cells, o0: seq<Obj>, g1: Cells, o1: seq<Obj>, g2: Cells, o2: seq<Obj>,
                  w: nat, h: nat, cell: Option<nat>, x: int, y: int, time: int)
    requires Consistent(g0, o0, w, h) && Consistent(g1, o1, w, h) && Stays(o0, o1) && Stays(o1, o2)
    requires Holds(g1, Vector(x, y), cell) && Progress(g0, o0, g1, o1, w, h, x, y, time)
    requires cell.None? ==> o2 == o1 && g2 == g1
    requires cell.Some? ==> cell.value < |o1| && |o1| <= |o2|
    requires cell.Some? && !Due(o1[cell.value], time) ==> o2 == o1 && g2 == g1
    requires cell.Some? && Due(o1[cell.value], time) && o1[cell.value].kind.LaserObject? ==>
      Emitted(o1, g1, o2, g2, w, h, cell.value, true, time)
    requires cell.Some? && Due(o1[cell.value], time) && o1[cell.value].kind.Block? ==>
      && InBounds(w, h, o1[cell.value].pos)
      && o2 == Mark(o1, cell.value) && g2 == Set(g1, o1[cell.value].pos, None)
    requires cell.Some? ==> forall j :: 0 <= j < |o1| && j != cell.value && DueBlock(o1[j], time) ==> o2[j] == o1[j]
    ensures Progress(g0, o0, g2, o2, w, h, x, y + 1, time)
  {
    forall j | 0 <= j < |o0| && !o0[j].destroyed
      ensures InBounds(w, h, o0[j].pos)
    {
      assert ObjOk(g0, o0, w, h, j);
    }
    if cell.Some? {
      assert CellOk(g1, o1, y, x);
      TickStep(g0, o0, g1, o1, g2, o2, w, h, cell.value, x, y, time);
    } else {
      EmptyStep(g0, o0, g1, o1, w, h, x, y, time);
    }
    FadeStep(o0, g1, o1, o2, w, h, cell, x, y, time);
  }

  /** A visit to an empty cell: no source stands there, so nothing changes for any of them. */
  lemma EmptyStep(g0: Cells, o0: seq<Obj>, g1: Cells, o1: seq<Obj>, w: nat, h: nat, x: int, y: int, time: int)
    requires Consistent(g1, o1, w, h) && Holds(g1, Vector(x, y), None)
    requires forall j :: 0 <= j < |o0| && Ready(g0, o0, w, h, j, time) ==>
      if Before(o0[j].pos, x, y) then SegmentAt(g1, o1, Step(o0[j].pos, o0[j].kind.dir))
      else Waiting(g1, o1, j, o0[j])
    ensures forall j :: 0 <= j < |o0| && Ready(g0, o0, w, h, j, time) ==>
      if Before(o0[j].pos, x, y + 1) then SegmentAt(g1, o1, Step(o0[j].pos, o0[j].kind.dir))
      else Waiting(g1, o1, j, o0[j])
  {
    forall j | 0 <= j < |o0| && Ready(g0, o0, w, h, j, time) && !Before(o0[j].pos, x, y)
      ensures o0[j].pos != Vector(x, y)
    {
      assert Waiting(g1, o1, j, o0[j]);
      assert ObjOk(g1, o1, w, h, j);
    }
  }

  /** Two objects trading places keeps the grid and arena in agreement. */
  lemma ExchangeConsistent(g: Cells, objs: seq<Obj>, w: nat, h: nat, a: nat, b: nat)
    requires Consistent(g, objs, w, h) && Pending(objs, {}) && Grounded(objs)
    requires a < |objs| && b < |objs| && !objs[a].destroyed && !objs[b].destroyed
    requires objs[a].pos != objs[b].pos
    ensures InBounds(w, h, objs[a].pos) && InBounds(w, h, objs[b].pos) && Rect(g, w, h)
    ensures var p1, p2 := objs[a].pos, objs[b].pos;
      var g1 := Set(Vacate(g, p1, a), p2, Some(a));
      var g' := Set(Vacate(g1, p2, b), p1, Some(b));
      var n := Moved(Moved(objs, a, p2), b, p1);
      Consistent(g', n, w, h) && Pending(n, {}) && Grounded(n)
  {
    assert ObjOk(g, objs, w, h, a) && ObjOk(g, objs, w, h, b);
    var p1, p2 := objs[a].pos, objs[b].pos;
    var g1 := Set(Vacate(g, p1, a), p2, Some(a));
    var g' := Set(Vacate(g1, p2, b), p1, Some(b));
    assert g' == Set(g1, p1, Some(b));
    var n := Moved(Moved(objs, a, p2), b, p1);
    ExchangeCells(g, objs, w, h, a, b, g', n);
    ExchangeObjs(g, objs, w, h, a, b, g', n);
    forall k | 0 <= k < |n| && IsLaser(n[k])
      ensures !n[k].hasGravity
    {
      assert IsLaser(objs[k]);
    }
  }

  /** The cell half of ExchangeConsistent: every occupied cell of the exchanged grid holds its object. */
  lemma ExchangeCells(g: Cells, objs: seq<Obj>, w: nat, h: nat, a: nat, b: nat, g': Cells, n: seq<Obj>)
    requires Consistent(g, objs, w, h)
    requires a < |objs| && b < |objs| && !objs[a].destroyed && !objs[b].destroyed
    requires ObjOk(g, objs, w, h, a) && ObjOk(g, objs, w, h, b) && objs[a].pos != objs[b].pos
    requires g' == Set(Set(Vacate(g, objs[a].pos, a), objs[b].pos, Some(a)), objs[a].pos, Some(b))
    requires n == Moved(Moved(objs, a, objs[b].pos), b, objs[a].pos)
    ensures Rect(g', w, h) && forall y, x :: 0 <= y < h && 0 <= x < w ==> CellOk(g', n, y, x)
  {
    forall y, x | 0 <= y < h && 0 <= x < w
      ensures CellOk(g', n, y, x)
    {
      assert CellOk(g, objs, y, x);
    }
  }

  /** The object half of ExchangeConsistent: every live object stands where the exchanged grid holds it. */
  lemma ExchangeObjs(g: Cells, objs: seq<Obj>, w: nat, h: nat, a: nat, b: nat, g': Cells, n: seq<Obj>)
    requires Consistent(g, objs, w, h) && Pending(objs, {})
    requires a < |objs| && b < |objs| && !objs[a].destroyed && !objs[b].destroyed
    requires ObjOk(g, objs, w, h, a) && ObjOk(g, objs, w, h, b) && objs[a].pos != objs[b].pos
    requires g' == Set(Set(Vacate(g, objs[a].pos, a), objs[b].pos, Some(a)), objs[a].pos, Some(b))
    requires n == Moved(Moved(objs, a, objs[b].pos), b, objs[a].pos)
    ensures Rect(g', w, h) && |n| == |objs|
    ensures forall k :: 0 <= k < |n| ==> ObjOk(g', n, w, h, k) && PendingAt(n, {}, k)
  {
    forall k | 0 <= k < |n|
      ensures ObjOk(g', n, w, h, k) && PendingAt(n, {}, k)
    {
      assert ObjOk(g, objs, w, h, k) && PendingAt(objs, {}, k);
      if k != a && k != b && !n[k].destroyed {
        assert CellOk(g, objs, objs[k].pos.y, objs[k].pos.x);
      }
    }
  }

  // ---------------------------------------------------------------------------
  // Loading

  /** A loaded object: on the board, of no beam, and with nothing to let go of. */
  predicate Fresh(o: Obj) {
    !o.destroyed && !IsLaser(o) && Unlinked(o)
  }

  /** Every object a level code places is fresh, standing on its own cell. */
  lemma SpawnFresh(s: Spec, pos: Vector)
    requires s != Empty
    ensures Fresh(Spawn(s, pos)) && Spawn(s, pos).pos == pos
    ensures Spawn(s, pos).kind.Block? <==> s.BlockAt?
  {
  }

  /** Cell `cell` at `p` holds what level code `code` places there. */
  ghost predicate Loads(cell: Option<nat>, code: nat, objs: seq<Obj>, p: Vector) {
    if Decode(code) == Empty then cell.None?
    else cell.Some? && cell.value < |objs| && objs[cell.value] == Spawn(Decode(code), p)
  }

  /** While loading row `y`: object `j` stands on a finished row of `g`, or on the part of row `y` built so far. */
  ghost predicate PlacedIn(g: Cells, row: seq<Option<nat>>, objs: seq<Obj>, j: nat, y: int, w: nat)
    requires j < |objs|
  {
    var p := objs[j].pos;
    0 <= p.x < w
    && ((0 <= p.y < y && p.y < |g| && p.x < |g[p.y]| && g[p.y][p.x] == Some(j))
        || (p.y == y && p.x < |row| && row[p.x] == Some(j)))
  }

  /** The number of blocks a row of level codes places. */
  function RowBlocks(row: seq<nat>): nat {
    if row == [] then 0
    else RowBlocks(row[..|row| - 1]) + (if Decode(row[|row| - 1]).BlockAt? then 1 else 0)
  }

  /** The number of blocks a level places: the blocks to clear. */
  function Blocks(data: seq<seq<nat>>): nat {
    if data == [] then 0 else Blocks(data[..|data| - 1]) + RowBlocks(data[|data| - 1])
  }

  /** Exactly the codes 1 to 3 place a block. */
  lemma BlockCodes(code: nat)
    ensures Decode(code).BlockAt? <==> RBL <= code <= BBL
  {
  }

  /** The first `y` rows of the grid hold what the level codes place there. */
  ghost predicate RowsLoaded(g: Cells, data: seq<seq<nat>>, objs: seq<Obj>, y: nat, w: nat) {
    |g| >= y && |data| >= y
    && (forall r :: 0 <= r < y ==> |g[r]| == w && |data[r]| == w)
    && forall r, c :: 0 <= r < y && 0 <= c < w ==> Loads(g[r][c], data[r][c], objs, Vector(c, r))
  }

  /** Every object loaded so far is fresh and stands where the grid, or the row being built, holds it. */
  ghost predicate AllPlaced(g: Cells, row: seq<Option<nat>>, objs: seq<Obj>, y: int, w: nat) {
    forall j :: 0 <= j < |objs| ==> Fresh(objs[j]) && PlacedIn(g, row, objs, j, y, w)
  }

  /** One more cell of row `y` loaded: an object appended to the arena or an empty cell. */
  lemma CellAppended(g: Cells, data: seq<seq<nat>>, a: seq<Obj>, r0: seq<Option<nat>>,
                     b: seq<Obj>, row: seq<Option<nat>>, y: nat, x: nat, w: nat)
    requires RowsLoaded(g, data, a, y, w) && AllPlaced(g, r0, a, y, w) && |g| == y
    requires y < |data| && x < |data[y]| == w && |r0| == x
    requires forall c :: 0 <= c < x ==> Loads(r0[c], data[y][c], a, Vector(c, y))
    requires Decode(data[y][x]) == Empty ==> b == a && row == r0 + [None]
    requires Decode(data[y][x]) != Empty ==>
      b == a + [Spawn(Decode(data[y][x]), Vector(x, y))] && row == r0 + [Some(|a|)]
    ensures RowsLoaded(g, data, b, y, w) && AllPlaced(g, row, b, y, w)
    ensures forall c :: 0 <= c <= x ==> Loads(row[c], data[y][c], b, Vector(c, y))
  {
    if Decode(data[y][x]) != Empty {
      SpawnFresh(Decode(data[y][x]), Vector(x, y));
    }
    forall r, c | 0 <= r < y && 0 <= c < w
      ensures Loads(g[r][c], data[r][c], b, Vector(c, r))
    {
      assert Loads(g[r][c], data[r][c], a, Vector(c, r));
    }
    forall c | 0 <= c <= x
      ensures Loads(row[c], data[y][c], b, Vector(c, y))
    {
      if c < x {
        assert Loads(r0[c], data[y][c], a, Vector(c, y));
      }
    }
    forall j | 0 <= j < |b|
      ensures Fresh(b[j]) && PlacedIn(g, row, b, j, y, w)
    {
      if j < |a| {
        assert Fresh(a[j]) && PlacedIn(g, r0, a, j, y, w);
      }
    }
  }

  /** A finished row joins the grid. */
  lemma RowAppended(g: Cells, data: seq<seq<nat>>, objs: seq<Obj>, row: seq<Option<nat>>, y: nat, w: nat)
    requires RowsLoaded(g, data, objs, y, w) && AllPlaced(g, row, objs, y, w) && |g| == y
    requires y < |data| && |data[y]| == w && |row| == w
    requires forall c :: 0 <= c < w ==> Loads(row[c], data[y][c], objs, Vector(c, y))
    ensures RowsLoaded(g + [row], data, objs, y + 1, w) && AllPlaced(g + [row], [], objs, y + 1, w)
  {
    var g' := g + [row];
    forall r, c | 0 <= r <= y && 0 <= c < w
      ensures Loads(g'[r][c], data[r][c], objs, Vector(c, r))
    {
      if r < y {
        assert g'[r] == g[r];
      }
    }
    var y1 := y + 1;
    forall j | 0 <= j < |objs|
      ensures Fresh(objs[j]) && PlacedIn(g', [], objs, j, y1, w)
    {
      assert Fresh(objs[j]) && PlacedIn(g, row, objs, j, y, w);
    }
  }

  /** A fully loaded level: grid and arena agree, nothing is pending, no segment falls. */
  lemma LoadedConsistent(g: Cells, data: seq<seq<nat>>, objs: seq<Obj>, w: nat, h: nat)
    requires RowsLoaded(g, data, objs, h, w) && AllPlaced(g, [], objs, h, w) && |g| == h
    ensures Consistent(g, objs, w, h) && Pending(objs, {}) && Grounded(objs)
    ensures forall y, x :: 0 <= y < h && 0 <= x < w ==> Loads(g[y][x], data[y][x], objs, Vector(x, y))
    ensures forall j :: 0 <= j < |objs| ==> Fresh(objs[j])
  {
    forall r, c | 0 <= r < h && 0 <= c < w
      ensures CellOk(g, objs, r, c)
    {
      assert Loads(g[r][c], data[r][c], objs, Vector(c, r));
      if g[r][c].Some? {
        SpawnFresh(Decode(data[r][c]), Vector(c, r));
      }
    }
    forall j | 0 <= j < |objs|
      ensures ObjOk(g, objs, w, h, j) && PendingAt(objs, {}, j)
    {
      assert Fresh(objs[j]) && PlacedIn(g, [], objs, j, h, w);
    }
  }

  // ---------------------------------------------------------------------------
  // Counting blocks

  /** A grown arena counts the same blocks when the old objects keep their standing and the new ones are no blocks. */
  lemma {:induction false} LiveBlocksExtend(a: seq<Obj>, b: seq<Obj>)
    requires |a| <= |b|
    requires forall j :: 0 <= j < |a| ==> LiveBlock(a[j]) == LiveBlock(b[j])
    requires forall j :: |a| <= j < |b| ==> !LiveBlock(b[j])
    ensures LiveBlocks(b) == LiveBlocks(a)
    decreases |b|
  {
    if |b| > 0 {
      if |a| == |b| {
        LiveBlocksExtend(a[..|a| - 1], b[..|b| - 1]);
      } else {
        LiveBlocksExtend(a, b[..|b| - 1]);
      }
    }
  }

  lemma {:induction false} LiveBlocksUpdate(objs: seq<Obj>, j: nat, v: Obj)
    requires j < |objs|
    ensures LiveBlocks(objs[j := v]) ==
      LiveBlocks(objs) - (if LiveBlock(objs[j]) then 1 else 0) + (if LiveBlock(v) then 1 else 0)
    decreases |objs|
  {
    var n := objs[j := v];
    if j < |objs| - 1 {
      assert n[..|n| - 1] == objs[..|objs| - 1][j := v];
      LiveBlocksUpdate(objs[..|objs| - 1], j, v);
    } else {
      assert n[..|n| - 1] == objs[..|objs| - 1];
    }
  }

  /** No block is left exactly when the count of blocks left is zero. */
  lemma {:induction false} LiveBlocksZero(objs: seq<Obj>)
    ensures LiveBlocks(objs) == 0 <==> forall j :: 0 <= j < |objs| ==> !LiveBlock(objs[j])
    decreases |objs|
  {
    if objs != [] {
      var p := objs[..|objs| - 1];
      LiveBlocksZero(p);
      if LiveBlocks(objs) == 0 {
        forall j | 0 <= j < |objs|
          ensures !LiveBlock(objs[j])
        {
          if j < |p| {
            assert objs[j] == p[j];
          }
        }
      } else if !LiveBlock(objs[|objs| - 1]) {
        var k :| 0 <= k < |p| && LiveBlock(p[k]);
        assert objs[k] == p[k];
      }
    }
  }

  /** A retracting cascade never destroys or creates a block. */
  lemma RetractsBlocks(a: seq<Obj>, b: seq<Obj>)
    requires Retracts(a, b)
    ensures LiveBlocks(b) == LiveBlocks(a)
  {
    forall j | 0 <= j < |a|
      ensures LiveBlock(a[j]) == LiveBlock(b[j])
    {
      assert RetractAt(a, b, j);
    }
    LiveBlocksExtend(a, b);
  }

  lemma MovedBlocks(objs: seq<Obj>, id: nat, to: Vector)
    requires id < |objs|
    ensures LiveBlocks(Moved(objs, id, to)) == LiveBlocks(objs)
  {
    LiveBlocksUpdate(objs, id, objs[id].(pos := to));
  }

  /** Laying a segment adds no block. */
  lemma SpawnBlocks(objs: seq<Obj>, id: nat, seg: Obj)
    requires id < |objs| && objs[id].kind.LaserObject? && !LiveBlock(seg)
    ensures LiveBlocks(objs[id := Linked(objs[id], |objs|)] + [seg]) == LiveBlocks(objs)
  {
    var n := objs[id := Linked(objs[id], |objs|)];
    LiveBlocksUpdate(objs, id, n[id]);
    assert (n + [seg])[..|n|] == n;
  }

  /** A strike fades a block but leaves it on the board. */
  lemma StrikeBlocks(objs: seq<Obj>, id: nat, t: nat, color: int, time: int)
    requires id < |objs| && t < |objs| && t != id && objs[id].kind.LaserObject?
    ensures var n := objs[t := Hit(objs[t], color, time)];
      LiveBlocks(n[id := n[id].(kind := n[id].kind.(hitting := Some(t)))]) == LiveBlocks(objs)
  {
    var n := objs[t := Hit(objs[t], color, time)];
    LiveBlocksUpdate(objs, t, n[t]);
    LiveBlocksUpdate(n, id, n[id].(kind := n[id].kind.(hitting := Some(t))));
  }

  /** Appending an object adds one to the count exactly when it is a live block. */
  lemma LiveBlocksSnoc(a: seq<Obj>, o: Obj)
    ensures LiveBlocks(a + [o]) == LiveBlocks(a) + (if LiveBlock(o) then 1 else 0)
  {
    assert (a + [o])[..|a|] == a;
  }

  lemma RowBlocksSnoc(row: seq<nat>, x: nat)
    requires x < |row|
    ensures RowBlocks(row[..x + 1]) == RowBlocks(row[..x]) + (if Decode(row[x]).BlockAt? then 1 else 0)
  {
    assert row[..x + 1][..x] == row[..x];
  }

  lemma BlocksSnoc(data: seq<seq<nat>>, y: nat)
    requires y < |data|
    ensures Blocks(data[..y + 1]) == Blocks(data[..y]) + RowBlocks(data[y])
  {
    assert data[..y + 1][..y] == data[..y];
  }

  // ---------------------------------------------------------------------------
  // onMove as written: the hit object is notified before `hitting` is cleared

  /** Every `hitting` reference of a row of mirrors names one of them. */
  predicate HitsInRange(hit: seq<Option<nat>>) {
    forall j :: 0 <= j < |hit| && hit[j].Some? ==> hit[j].value < |hit|
  }

  /**
   * onMove of mirror `i` in the order the source runs it, for mirrors with no
   * beam of their own: the mirror it hits is told first (a mirror's onHitEnd
   * is its own onMove) and only then is `hitting` cleared. `fuel` bounds the
   * depth of the calls; None means it ran out.
   */
  function OnMoveAsWritten(hit: seq<Option<nat>>, i: nat, fuel: nat): (r: Option<seq<Option<nat>>>)
    requires i < |hit| && HitsInRange(hit)
    ensures r.Some? ==> |r.value| == |hit| && r.value[i].None?
    decreases fuel
  {
    if fuel == 0 then None
    else if hit[i].None? then Some(hit)
    else match OnMoveAsWritten(hit, hit[i].value, fuel - 1)
      case None => None
      case Some(h) => Some(h[i := None])
  }

  /** Two mirrors that hit each other: onMove of either one never returns, however deep the stack. */
  lemma {:induction false} FacingMirrorsNeverReturn(i: nat, fuel: nat)
    requires i < 2
    ensures OnMoveAsWritten([Some(1), Some(0)], i, fuel).None?
    decreases fuel
  {
    if fuel > 0 {
      FacingMirrorsNeverReturn(1 - i, fuel - 1);
    }
  }
}
