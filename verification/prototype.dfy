// The laser puzzle of casual-prototype, the first version of the casual game:
// emitters, mirrors and blocks on a grid. A beam source lays one laser
// segment per emit, each segment carries the beam one cell further once it
// is older than the laser time, and a beam that strikes a block of its own
// colour destroys that block at once.
//
// As in the later version, objects live in an arena `objs` indexed by id and
// a grid cell holds the id of the object standing on it; `child` is the id of
// the first segment of a source's beam.

module Prototype {
  import opened Board

  const LaserTime := 30

  // Level codes, numbered in the order the source declares them; the bomb,
  // dog and splitter codes (28 to 30) have no object yet.
  const CLR := 0
  const RBL := 1
  const BBL := 3
  const RER := 4
  const BED := 15
  const RMR := 16
  const BMD := 27

  /** What a level code places on a cell. */
  datatype Spec =
    | Empty
    | BlockAt(color: int)
    | EmitterAt(dir: Dir, color: int)
    | MirrorAt(dir: Dir, color: int)

  /** The code arithmetic of loadObject. */
  function Decode(code: nat): Spec {
    if code == CLR then Empty
    else if code <= BBL then BlockAt(code - RBL)
    else if code <= BMD then
      var i := code - RER;
      if code <= BED then EmitterAt(Dirs[i % 4], (i % 12) / 4)
      else MirrorAt(Dirs[i % 4], (i % 12) / 4)
    else Empty
  }

  predicate Encodable(s: Spec) {
    match s
    case Empty => true
    case BlockAt(c) => 0 <= c < 3
    case EmitterAt(_, c) => 0 <= c < 3
    case MirrorAt(_, c) => 0 <= c < 3
  }

  /** The level code that places `s`: colour-major, then direction. */
  function Encode(s: Spec): nat
    requires Encodable(s)
  {
    match s
    case Empty => CLR
    case BlockAt(c) => RBL + c
    case EmitterAt(d, c) => RER + 4 * c + DirIndex(d)
    case MirrorAt(d, c) => RMR + 4 * c + DirIndex(d)
  }

  /** Every placeable thing survives encoding then decoding. */
  lemma DecodeEncode(s: Spec)
    requires Encodable(s)
    ensures Decode(Encode(s)) == s
  {
  }

  /** Every code up to the last mirror is the encoding of what it decodes to. */
  lemma EncodeDecode(code: nat)
    requires code <= BMD
    ensures Encodable(Decode(code)) && Encode(Decode(code)) == code
  {
    if RER <= code {
      var i := code - RER;
      assert i == 4 * ((i % 12) / 4) + i % 4 + 12 * (i / 12);
      assert DirIndex(Dirs[i % 4]) == i % 4;
    }
  }

  /** Codes past the mirrors place nothing. */
  lemma UnknownCodesEmpty(code: nat)
    requires code == CLR || code > BMD
    ensures Decode(code) == Empty
  {
  }

  datatype Role = Laser(creationTime: int) | Emitter | Mirror(hitTime: int)

  datatype Kind =
    | Block(color: int)
    | LaserObject(role: Role, dir: Dir, color: int, child: Option<nat>)

  datatype Obj = Obj(pos: Vector, destroyed: bool, kind: Kind)

  /** A freshly constructed object for a level cell. */
  function Spawn(s: Spec, pos: Vector): Obj
    requires s != Empty
  {
    match s
    case BlockAt(c) => Obj(pos, false, Block(c))
    case EmitterAt(d, c) => Obj(pos, false, LaserObject(Emitter, d, c, None))
    case MirrorAt(d, c) => Obj(pos, false, LaserObject(Mirror(-1), d, c, None))
  }

  /** A new laser segment, created at `time`. */
  function NewLaser(pos: Vector, d: Dir, color: int, time: int): Obj {
    Obj(pos, false, LaserObject(Laser(time), d, color, None))
  }

  predicate IsLaser(o: Obj) { o.kind.LaserObject? && o.kind.role.Laser? }
  predicate IsMirror(o: Obj) { o.kind.LaserObject? && o.kind.role.Mirror? }

  /** hasGravity: every object falls except laser segments. */
  predicate HasGravity(o: Obj) { !IsLaser(o) }

  /** swappable: every object can be swapped except laser segments. */
  predicate Swappable(o: Obj) { !IsLaser(o) }

  /** A block that a beam of colour `color` destroys when it strikes it. */
  predicate Matches(o: Obj, color: int) { o.kind.Block? && o.kind.color == color }

  /** onHit of everything but a block: a dark mirror records the time of its first hit; nothing else reacts. */
  function Hit(o: Obj, time: int): (r: Obj)
    ensures r.pos == o.pos && r.destroyed == o.destroyed && IsLaser(r) == IsLaser(o)
    ensures r.kind.LaserObject? == o.kind.LaserObject?
    ensures o.kind.LaserObject? ==> r.kind.child == o.kind.child && r.kind.dir == o.kind.dir
    ensures IsMirror(o) && o.kind.role.hitTime < 0 ==> r.kind.role == Mirror(time)
    ensures !(IsMirror(o) && o.kind.role.hitTime < 0) ==> r == o
  {
    if IsMirror(o) && o.kind.role.hitTime < 0 then o.(kind := o.kind.(role := Mirror(time))) else o
  }

  /** Only the first hit counts: a mirror that was hit at a time `t1 >= 0` keeps that time. */
  lemma HitOnce(o: Obj, t1: int, t2: int)
    requires t1 >= 0
    ensures Hit(Hit(o, t1), t2) == Hit(o, t1)
  {
  }

  /** destroy, with onDestroy: the object is gone and a beam source forgets its beam. */
  function Retired(o: Obj): (r: Obj)
    ensures r.pos == o.pos && r.destroyed && IsLaser(r) == IsLaser(o) && r.kind.LaserObject? == o.kind.LaserObject?
    ensures r.kind.LaserObject? ==> r.kind.child.None? && r.kind.role == o.kind.role
    ensures r.kind.Block? ==> r.kind == o.kind
  {
    match o.kind
    case Block(_) => o.(destroyed := true)
    case LaserObject(_, _, _, _) => o.(destroyed := true, kind := o.kind.(child := None))
  }

  /** onMove of the object itself: a beam source forgets its beam and a mirror goes dark. */
  function Unhooked(o: Obj): (r: Obj)
    ensures r.pos == o.pos && r.destroyed == o.destroyed && IsLaser(r) == IsLaser(o)
    ensures r.kind.LaserObject? == o.kind.LaserObject?
    ensures r.kind.LaserObject? ==> r.kind.child.None? && r.kind.dir == o.kind.dir && r.kind.color == o.kind.color
    ensures IsMirror(o) ==> r.kind.role == Mirror(-1)
    ensures o.kind.Block? ==> r == o
  {
    match o.kind
    case Block(_) => o
    case LaserObject(role, _, _, _) =>
      o.(kind := o.kind.(child := None, role := if role.Mirror? then Mirror(-1) else role))
  }

  // ---------------------------------------------------------------------------
  // Well-formed scenes

  type Cells = seq<seq<Option<nat>>>

  /** A child is a later laser segment of the arena. */
  ghost predicate LinksOk(objs: seq<Obj>, j: nat)
    requires j < |objs|
  {
    objs[j].kind.LaserObject? && objs[j].kind.child.Some? ==>
      j < objs[j].kind.child.value < |objs| && IsLaser(objs[objs[j].kind.child.value])
  }

  /** An occupied cell holds a live object standing on it. */
  ghost predicate CellOk(g: Cells, objs: seq<Obj>, y: nat, x: nat)
    requires y < |g| && x < |g[y]|
  {
    g[y][x].Some? ==>
      g[y][x].value < |objs| && !objs[g[y][x].value].destroyed && objs[g[y][x].value].pos == Vector(x, y)
  }

  /** A live object stands on the grid, in the cell that holds it; its child is in range. */
  ghost predicate ObjOk(g: Cells, objs: seq<Obj>, w: nat, h: nat, j: nat)
    requires Rect(g, w, h) && j < |objs|
  {
    (!objs[j].destroyed ==> InBounds(w, h, objs[j].pos) && g[objs[j].pos.y][objs[j].pos.x] == Some(j))
    && LinksOk(objs, j)
  }

  /** The grid and the arena agree. */
  ghost predicate Consistent(g: Cells, objs: seq<Obj>, w: nat, h: nat) {
    && Rect(g, w, h)
    && (forall y, x :: 0 <= y < h && 0 <= x < w ==> CellOk(g, objs, y, x))
    && (forall j :: 0 <= j < |objs| ==> ObjOk(g, objs, w, h, j))
  }

  /** The live objects reached from `id` by `child` links: `id` itself, if live, and the beam it holds. */
  ghost function Chain(objs: seq<Obj>, id: nat): (r: set<nat>)
    requires id < |objs|
    ensures forall j :: j in r ==> id <= j < |objs| && !objs[j].destroyed
    ensures !objs[id].destroyed ==> id in r
    decreases |objs| - id
  {
    if objs[id].destroyed then {}
    else {id} + if objs[id].kind.LaserObject? && objs[id].kind.child.Some? && id < objs[id].kind.child.value < |objs|
                then Chain(objs, objs[id].kind.child.value) else {}
  }

  /** The beam that hangs from source `id`: the chain of its child. */
  ghost function Beam(objs: seq<Obj>, id: nat): (r: set<nat>)
    requires id < |objs|
    ensures forall j :: j in r ==> id < j < |objs| && !objs[j].destroyed
  {
    if objs[id].kind.LaserObject? && objs[id].kind.child.Some? && id < objs[id].kind.child.value < |objs|
    then Chain(objs, objs[id].kind.child.value) else {}
  }

  /** The chain of a laser is made of laser segments only. */
  lemma {:induction false} ChainLasers(g: Cells, objs: seq<Obj>, w: nat, h: nat, id: nat)
    requires Consistent(g, objs, w, h) && id < |objs|
    ensures forall j :: j in Chain(objs, id) && j != id ==> IsLaser(objs[j])
    ensures IsLaser(objs[id]) ==> forall j :: j in Chain(objs, id) ==> IsLaser(objs[j])
    decreases |objs| - id
  {
    assert ObjOk(g, objs, w, h, id);
    if !objs[id].destroyed && objs[id].kind.LaserObject? && objs[id].kind.child.Some? {
      ChainLasers(g, objs, w, h, objs[id].kind.child.value);
    }
  }

  /** A beam is made of laser segments only. */
  lemma BeamLasers(g: Cells, objs: seq<Obj>, w: nat, h: nat, id: nat)
    requires Consistent(g, objs, w, h) && id < |objs|
    ensures forall j :: j in Beam(objs, id) ==> IsLaser(objs[j])
  {
    assert ObjOk(g, objs, w, h, id);
    if objs[id].kind.LaserObject? && objs[id].kind.child.Some? {
      ChainLasers(g, objs, w, h, objs[id].kind.child.value);
    }
  }

  /** Chains only look at the objects from `id` on. */
  lemma {:induction false} ChainFrame(a: seq<Obj>, b: seq<Obj>, id: nat)
    requires id < |a| == |b|
    requires forall j :: id <= j < |a| ==> a[j] == b[j]
    ensures Chain(a, id) == Chain(b, id)
    decreases |a| - id
  {
    if !a[id].destroyed && a[id].kind.LaserObject? && a[id].kind.child.Some? && id < a[id].kind.child.value < |a| {
      ChainFrame(a, b, a[id].kind.child.value);
    }
  }

  /** Chains depend only on which objects are live and on their links, not on where objects stand. */
  lemma {:induction false} ChainKinds(a: seq<Obj>, b: seq<Obj>, id: nat)
    requires id < |a| == |b|
    requires forall j :: 0 <= j < |a| ==> a[j].destroyed == b[j].destroyed && a[j].kind == b[j].kind
    ensures Chain(a, id) == Chain(b, id)
    decreases |a| - id
  {
    if !a[id].destroyed && a[id].kind.LaserObject? && a[id].kind.child.Some? && id < a[id].kind.child.value < |a| {
      ChainKinds(a, b, a[id].kind.child.value);
    }
  }

  /** The chain of any member of a chain lies inside that chain. */
  lemma {:induction false} ChainClosed(objs: seq<Obj>, x: nat)
    requires x < |objs|
    ensures forall s :: s in Chain(objs, x) ==> Chain(objs, s) <= Chain(objs, x)
    decreases |objs| - x
  {
    if !objs[x].destroyed && objs[x].kind.LaserObject? && objs[x].kind.child.Some?
       && x < objs[x].kind.child.value < |objs| {
      ChainClosed(objs, objs[x].kind.child.value);
    }
  }

  /**
   * Retiring a set `s` of segments that is closed under chains cuts the chain
   * of a segment `x` short: what is left of it is part of the old chain, and
   * the old chain is what is left plus members of `s`.
   */
  lemma {:induction false} ChainAfter(g: Cells, o1: seq<Obj>, o2: seq<Obj>, w: nat, h: nat, s: set<nat>, x: nat)
    requires Consistent(g, o1, w, h) && x < |o1| == |o2| && IsLaser(o1[x])
    requires forall j :: 0 <= j < |o1| && j !in s && IsLaser(o1[j]) ==> o2[j] == o1[j]
    requires forall j :: j in s && j < |o2| ==> o2[j].destroyed
    requires forall j :: j in s && j < |o1| ==> Chain(o1, j) <= s
    ensures Chain(o1, x) <= s + Chain(o2, x) && Chain(o2, x) <= Chain(o1, x)
    decreases |o1| - x
  {
    if x !in s && !o1[x].destroyed {
      assert ObjOk(g, o1, w, h, x);
      if o1[x].kind.child.Some? {
        ChainAfter(g, o1, o2, w, h, s, o1[x].kind.child.value);
      }
    }
  }

  /** `b` is `a` with the objects of `s` destroyed (retired); every other object is as it was. */
  ghost predicate RetiredIn(a: seq<Obj>, b: seq<Obj>, s: set<nat>) {
    |a| == |b| && forall j :: 0 <= j < |a| ==> b[j] == if j in s then Retired(a[j]) else a[j]
  }

  /** `g'` is `g` with every cell that held an object of `s` emptied; every other cell is as it was. */
  ghost predicate ClearedIn(g: Cells, g': Cells, s: set<nat>) {
    |g'| == |g| && (forall y :: 0 <= y < |g| ==> |g'[y]| == |g[y]|)
    && forall y, x :: 0 <= y < |g| && 0 <= x < |g[y]| ==>
      g'[y][x] == if g[y][x].Some? && g[y][x].value in s then None else g[y][x]
  }

  lemma RetiredNone(a: seq<Obj>)
    ensures RetiredIn(a, a, {})
  {
  }

  lemma ClearedNone(g: Cells)
    ensures ClearedIn(g, g, {})
  {
  }

  /**
   * Two onMove calls in a row, on two objects that are not segments: together
   * they unhook both objects and retire both beams, as they stood before the
   * first call, with their cells emptied.
   */
  lemma BeamsRetired(g1: Cells, o1: seq<Obj>, w: nat, h: nat, a: nat, b: nat,
                     g2: Cells, o2: seq<Obj>, g3: Cells, o3: seq<Obj>)
    requires Consistent(g1, o1, w, h) && a < |o1| && b < |o1| && a != b
    requires !IsLaser(o1[a]) && !IsLaser(o1[b])
    requires RetiredIn(o1[a := Unhooked(o1[a])], o2, Beam(o1, a)) && ClearedIn(g1, g2, Beam(o1, a))
    requires RetiredIn(o2[b := Unhooked(o2[b])], o3, Beam(o2, b)) && ClearedIn(g2, g3, Beam(o2, b))
    ensures RetiredIn(o1[a := Unhooked(o1[a])][b := Unhooked(o1[b])], o3, Beam(o1, a) + Beam(o1, b))
    ensures ClearedIn(g1, g3, Beam(o1, a) + Beam(o1, b))
  {
    var s := Beam(o1, a);
    BeamLasers(g1, o1, w, h, a);
    BeamLasers(g1, o1, w, h, b);
    assert o2[b] == o1[b];
    assert ObjOk(g1, o1, w, h, a) && ObjOk(g1, o1, w, h, b);
    if o1[a].kind.LaserObject? && o1[a].kind.child.Some? {
      ChainClosed(o1, o1[a].kind.child.value);
    }
    if o1[b].kind.LaserObject? && o1[b].kind.child.Some? {
      ChainAfter(g1, o1, o2, w, h, s, o1[b].kind.child.value);
    }
    assert Beam(o1, b) <= s + Beam(o2, b) && Beam(o2, b) <= Beam(o1, b);
    var u := s + Beam(o1, b);
    var o1' := o1[a := Unhooked(o1[a])][b := Unhooked(o1[b])];
    forall j | 0 <= j < |o1|
      ensures o3[j] == if j in u then Retired(o1'[j]) else o1'[j]
    {
      if j in Beam(o2, b) {
        assert j !in s && j != a && j != b;
      }
    }
    forall y, x | 0 <= y < |g1| && 0 <= x < |g1[y]|
      ensures g3[y][x] == if g1[y][x].Some? && g1[y][x].value in u then None else g1[y][x]
    {
    }
  }

  /**
   * The beams retired after an exchange are the beams the two objects had
   * before it: trading places changes no link, and each object's new cell
   * holds the other object's id.
   */
  lemma SwapRetired(g0: Cells, o0: seq<Obj>, a: nat, b: nat, p1: Vector, p2: Vector,
                    gx: Cells, ox: seq<Obj>, g3: Cells, o3: seq<Obj>)
    requires a < |o0| && b < |o0| && a != b && o0[a].pos == p1 && o0[b].pos == p2 && p1 != p2
    requires 0 <= p1.y < |g0| && 0 <= p1.x < |g0[p1.y]| && 0 <= p2.y < |g0| && 0 <= p2.x < |g0[p2.y]|
    requires ox == Moved(Moved(o0, a, p2), b, p1) && gx == Set(Set(Set(g0, p1, None), p2, Some(a)), p1, Some(b))
    requires RetiredIn(ox[a := Unhooked(ox[a])][b := Unhooked(ox[b])], o3, Beam(ox, a) + Beam(ox, b))
    requires ClearedIn(gx, g3, Beam(ox, a) + Beam(ox, b))
    ensures RetiredIn(o0[a := Unhooked(o0[a].(pos := p2))][b := Unhooked(o0[b].(pos := p1))],
                      o3, Beam(o0, a) + Beam(o0, b))
    ensures ClearedIn(Set(Set(g0, p1, Some(b)), p2, Some(a)), g3, Beam(o0, a) + Beam(o0, b))
  {
    forall k | 0 <= k < |o0| ensures Chain(o0, k) == Chain(ox, k) {
      ChainKinds(o0, ox, k);
    }
    assert Beam(o0, a) == Beam(ox, a) && Beam(o0, b) == Beam(ox, b);
    assert ox[a := Unhooked(ox[a])][b := Unhooked(ox[b])]
        == o0[a := Unhooked(o0[a].(pos := p2))][b := Unhooked(o0[b].(pos := p1))];
    var gs: Cells := Set(Set(g0, p1, Some(b)), p2, Some(a));
    forall y, x | 0 <= y < |gs| && 0 <= x < |gs[y]|
      ensures g3[y][x] == if gs[y][x].Some? && gs[y][x].value in Beam(o0, a) + Beam(o0, b) then None else gs[y][x]
    {
      assert gs[y][x] == gx[y][x];
    }
  }

  /**
   * A fall: the segments of a closed set `s` are destroyed first (the chain
   * of the segment below), then the object moves down and drops its beam.
   * Together they retire `s` and the beam the object had before the fall.
   */
  lemma FallRetired(g0: Cells, o0: seq<Obj>, w: nat, h: nat, id: nat, to: Vector, s: set<nat>,
                    g1: Cells, o1: seq<Obj>, g2: Cells, o2: seq<Obj>)
    requires Consistent(g0, o0, w, h) && id < |o0| && !IsLaser(o0[id]) && !o0[id].destroyed
    requires InBounds(w, h, o0[id].pos) && InBounds(w, h, to) && o0[id].pos != to
    requires forall j :: j in s ==> j < |o0| && IsLaser(o0[j]) && Chain(o0, j) <= s
    requires RetiredIn(o0, o1, s) && ClearedIn(g0, g1, s)
    requires RetiredIn(Moved(o1, id, to)[id := Unhooked(o1[id].(pos := to))], o2, Beam(o1, id))
    requires ClearedIn(Set(Set(g1, o1[id].pos, None), to, Some(id)), g2, Beam(o1, id))
    ensures RetiredIn(o0[id := Unhooked(o0[id]).(pos := to)], o2, s + Beam(o0, id))
    ensures ClearedIn(Set(Set(g0, o0[id].pos, None), to, Some(id)), g2, s + Beam(o0, id))
  {
    assert o1[id] == o0[id];
    assert ObjOk(g0, o0, w, h, id);
    if o0[id].kind.LaserObject? && o0[id].kind.child.Some? {
      ChainAfter(g0, o0, o1, w, h, s, o0[id].kind.child.value);
    }
    FallObjects(o0, id, to, s, o1, o2);
    FallCells(g0, o0, id, to, s, g1, o1, g2);
  }

  /** Retiring segments only, and moving one object that is not a segment, keeps every object's nature. */
  lemma RetiredKept(a: seq<Obj>, id: nat, to: Vector, u: set<nat>, b: seq<Obj>)
    requires id < |a| && !IsLaser(a[id]) && !a[id].destroyed && forall j :: j in u ==> j < |a| && IsLaser(a[j])
    requires RetiredIn(a[id := Unhooked(a[id]).(pos := to)], b, u)
    ensures |b| == |a| && b[id].pos == to && !b[id].destroyed
    ensures forall j :: 0 <= j < |b| && j != id ==> b[j].pos == a[j].pos
    ensures forall j :: 0 <= j < |b| ==> Kept(a[j], b[j])
  {
    assert id !in u;
  }

  /** The object half of FallRetired, given how the beam before and after the first step relate. */
  lemma FallObjects(o0: seq<Obj>, id: nat, to: Vector, s: set<nat>, o1: seq<Obj>, o2: seq<Obj>)
    requires id < |o0| && !IsLaser(o0[id]) && forall j :: j in s ==> j < |o0| && IsLaser(o0[j])
    requires RetiredIn(o0, o1, s)
    requires RetiredIn(Moved(o1, id, to)[id := Unhooked(o1[id].(pos := to))], o2, Beam(o1, id))
    requires Beam(o0, id) <= s + Beam(o1, id) && Beam(o1, id) <= Beam(o0, id)
    ensures RetiredIn(o0[id := Unhooked(o0[id]).(pos := to)], o2, s + Beam(o0, id))
  {
    var u := s + Beam(o0, id);
    var m := o0[id := Unhooked(o0[id]).(pos := to)];
    forall j | 0 <= j < |o0|
      ensures o2[j] == if j in u then Retired(m[j]) else m[j]
    {
      if j in Beam(o1, id) {
        assert j !in s && j != id;
      }
    }
  }

  /** The grid half of FallRetired. */
  lemma FallCells(g0: Cells, o0: seq<Obj>, id: nat, to: Vector, s: set<nat>, g1: Cells, o1: seq<Obj>, g2: Cells)
    requires id < |o0| == |o1| && o1[id] == o0[id] && id !in s
    requires 0 <= to.y < |g0| && 0 <= to.x < |g0[to.y]|
    requires 0 <= o0[id].pos.y < |g0| && 0 <= o0[id].pos.x < |g0[o0[id].pos.y]| && o0[id].pos != to
    requires !(id in Beam(o1, id))
    requires ClearedIn(g0, g1, s)
    requires ClearedIn(Set(Set(g1, o1[id].pos, None), to, Some(id)), g2, Beam(o1, id))
    requires Beam(o0, id) <= s + Beam(o1, id) && Beam(o1, id) <= Beam(o0, id)
    ensures ClearedIn(Set(Set(g0, o0[id].pos, None), to, Some(id)), g2, s + Beam(o0, id))
  {
    var u := s + Beam(o0, id);
    var gb: Cells := Set(Set(g0, o0[id].pos, None), to, Some(id));
    var gm: Cells := Set(Set(g1, o1[id].pos, None), to, Some(id));
    forall y, x | 0 <= y < |gb| && 0 <= x < |gb[y]|
      ensures g2[y][x] == if gb[y][x].Some? && gb[y][x].value in u then None else gb[y][x]
    {
      assert g1[y][x] == if g0[y][x].Some? && g0[y][x].value in s then None else g0[y][x];
      assert g2[y][x] == if gm[y][x].Some? && gm[y][x].value in Beam(o1, id) then None else gm[y][x];
    }
  }

  /** Flagging a live object destroyed and emptying its cell keeps the grid and arena in agreement. */
  lemma MarkConsistent(g: Cells, objs: seq<Obj>, w: nat, h: nat, j: nat)
    requires Consistent(g, objs, w, h) && j < |objs| && !objs[j].destroyed
    ensures InBounds(w, h, objs[j].pos) && Get(g, objs[j].pos) == Some(j)
    ensures Consistent(Set(g, objs[j].pos, None), objs[j := objs[j].(destroyed := true)], w, h)
  {
    var n := objs[j := objs[j].(destroyed := true)];
    assert ObjOk(g, objs, w, h, j);
    var g' := Set(g, objs[j].pos, None);
    forall y, x | 0 <= y < h && 0 <= x < w
      ensures CellOk(g', n, y, x)
    {
      assert CellOk(g, objs, y, x);
    }
    forall k | 0 <= k < |n|
      ensures ObjOk(g', n, w, h, k)
    {
      assert ObjOk(g, objs, w, h, k);
    }
  }

  /** Replacing an object by one that stands in the same place, is as live and is as much a segment keeps agreement. */
  lemma RetouchConsistent(g: Cells, objs: seq<Obj>, w: nat, h: nat, j: nat, v: Obj)
    requires Consistent(g, objs, w, h) && j < |objs|
    requires v.pos == objs[j].pos && v.destroyed == objs[j].destroyed && IsLaser(v) == IsLaser(objs[j])
    requires LinksOk(objs[j := v], j)
    ensures Consistent(g, objs[j := v], w, h)
  {
    var n := objs[j := v];
    assert ObjOk(g, objs, w, h, j);
    forall y, x | 0 <= y < h && 0 <= x < w
      ensures CellOk(g, n, y, x)
    {
      assert CellOk(g, objs, y, x);
    }
    forall k | 0 <= k < |n|
      ensures ObjOk(g, n, w, h, k)
    {
      assert ObjOk(g, objs, w, h, k);
    }
  }

  /** One step of destroy: the object itself retired and its cell emptied, then the rest of its chain. */
  lemma DestroyStep(g0: Cells, o0: seq<Obj>, w: nat, h: nat, id: nat, g: Cells, objs: seq<Obj>)
    requires Consistent(g0, o0, w, h) && id < |o0| == |objs| && !o0[id].destroyed && InBounds(w, h, o0[id].pos)
    requires var o1 := o0[id := o0[id].(destroyed := true)];
      var g1 := Set(g0, o0[id].pos, None);
      && RetiredIn(o1, objs[id := o1[id]], Beam(o1, id))
      && ClearedIn(g1, g, Beam(o1, id))
      && objs[id] == Retired(o0[id])
    ensures RetiredIn(o0, objs, Chain(o0, id)) && ClearedIn(g0, g, Chain(o0, id))
  {
    var o1 := o0[id := o0[id].(destroyed := true)];
    assert ObjOk(g0, o0, w, h, id);
    assert Beam(o1, id) == Beam(o0, id) by {
      if o0[id].kind.LaserObject? && o0[id].kind.child.Some? && id < o0[id].kind.child.value < |o0| {
        ChainFrame(o0, o1, o0[id].kind.child.value);
      }
    }
    assert Chain(o0, id) == {id} + Beam(o0, id);
    forall y, x | 0 <= y < |g0| && 0 <= x < |g0[y]|
      ensures g[y][x] == if g0[y][x].Some? && g0[y][x].value in Chain(o0, id) then None else g0[y][x]
    {
      assert CellOk(g0, o0, y, x);
    }
  }

  /** Moving a live object onto an empty cell keeps the grid and arena in agreement. */
  lemma MoveConsistent(g: Cells, objs: seq<Obj>, w: nat, h: nat, id: nat, to: Vector)
    requires Consistent(g, objs, w, h)
    requires id < |objs| && !objs[id].destroyed && InBounds(w, h, to) && Get(g, to).None?
    ensures InBounds(w, h, objs[id].pos) && Get(g, objs[id].pos) == Some(id)
    ensures Consistent(Set(Set(g, objs[id].pos, None), to, Some(id)), Moved(objs, id, to), w, h)
  {
    assert ObjOk(g, objs, w, h, id);
    var n := Moved(objs, id, to);
    var g' := Set(Set(g, objs[id].pos, None), to, Some(id));
    forall y, x | 0 <= y < h && 0 <= x < w
      ensures CellOk(g', n, y, x)
    {
      assert CellOk(g, objs, y, x);
    }
    forall k | 0 <= k < |n|
      ensures ObjOk(g', n, w, h, k)
    {
      assert ObjOk(g, objs, w, h, k);
      if k != id && !n[k].destroyed {
        assert CellOk(g, objs, objs[k].pos.y, objs[k].pos.x);
      }
    }
  }

  /** Two live objects trading places keeps the grid and arena in agreement. */
  lemma ExchangeConsistent(g: Cells, objs: seq<Obj>, w: nat, h: nat, a: nat, b: nat)
    requires Consistent(g, objs, w, h)
    requires a < |objs| && b < |objs| && !objs[a].destroyed && !objs[b].destroyed
    requires objs[a].pos != objs[b].pos
    ensures InBounds(w, h, objs[a].pos) && InBounds(w, h, objs[b].pos)
    ensures Get(g, objs[a].pos) == Some(a) && Get(g, objs[b].pos) == Some(b)
    ensures Consistent(Set(Set(Set(g, objs[a].pos, None), objs[b].pos, Some(a)), objs[a].pos, Some(b)),
                       Moved(Moved(objs, a, objs[b].pos), b, objs[a].pos), w, h)
  {
    assert ObjOk(g, objs, w, h, a) && ObjOk(g, objs, w, h, b);
    var n := Moved(Moved(objs, a, objs[b].pos), b, objs[a].pos);
    var g' := Set(Set(Set(g, objs[a].pos, None), objs[b].pos, Some(a)), objs[a].pos, Some(b));
    forall y, x | 0 <= y < h && 0 <= x < w
      ensures CellOk(g', n, y, x)
    {
      assert CellOk(g, objs, y, x);
    }
    forall k | 0 <= k < |n|
      ensures ObjOk(g', n, w, h, k)
    {
      assert ObjOk(g, objs, w, h, k);
      if k != a && k != b && !n[k].destroyed {
        assert CellOk(g, objs, objs[k].pos.y, objs[k].pos.x);
      }
    }
  }

  /** A source with a live beam does not emit. */
  ghost predicate LiveChild(objs: seq<Obj>, id: nat)
    requires id < |objs| && objs[id].kind.LaserObject?
  {
    objs[id].kind.child.Some? && objs[id].kind.child.value < |objs| && !objs[objs[id].kind.child.value].destroyed
  }

  /**
   * The arena and grid after source `id` emits: nothing happens while its beam
   * stands or when it faces the edge; an empty cell ahead gets one new segment,
   * which becomes the source's child; otherwise the occupant ahead is hit, and
   * a block of the beam's colour is destroyed.
   */
  ghost predicate Emitted(a: seq<Obj>, g: Cells, b: seq<Obj>, g': Cells, w: nat, h: nat, id: nat, time: int)
    requires Rect(g, w, h) && id < |a| && a[id].kind.LaserObject?
  {
    var src := a[id];
    var next := Step(src.pos, src.kind.dir);
    if LiveChild(a, id) || !InBounds(w, h, next) then b == a && g' == g
    else if Get(g, next).None? then
      b == a[id := src.(kind := src.kind.(child := Some(|a|)))] + [NewLaser(next, src.kind.dir, src.kind.color, time)]
      && g' == Set(g, next, Some(|a|))
    else
      var t := Get(g, next).value;
      t < |a| && t != id && a[t].pos == next && !a[t].destroyed
      && if Matches(a[t], src.kind.color)
         then b == a[t := Retired(a[t])] && g' == Set(g, next, None)
         else b == a[t := Hit(a[t], time)] && g' == g
  }

  /** Cell `q` holds a live laser segment. */
  ghost predicate SegmentAt(g: Cells, objs: seq<Obj>, q: Vector) {
    0 <= q.y < |g| && 0 <= q.x < |g[q.y]| && Get(g, q).Some? && Get(g, q).value < |objs|
    && IsLaser(objs[Get(g, q).value]) && !objs[Get(g, q).value].destroyed
  }

  /** Source `j` is due, has no live beam, and the cell ahead of it is on the grid and empty. */
  ghost predicate Ready(g: Cells, objs: seq<Obj>, w: nat, h: nat, j: nat, time: int) {
    j < |objs| && !objs[j].destroyed && objs[j].kind.LaserObject? && Due(objs[j], time) && !LiveChild(objs, j)
    && InBounds(w, h, Step(objs[j].pos, objs[j].kind.dir)) && Holds(g, Step(objs[j].pos, objs[j].kind.dir), None)
  }

  /** No live object on the board is due to act at `time`. */
  ghost predicate Idle(objs: seq<Obj>, time: int) {
    forall j :: 0 <= j < |objs| && !objs[j].destroyed ==> !Due(objs[j], time)
  }

  /** Cell `p` comes before column `x`, row `y` in the column-by-column, top-to-bottom order of the tick pass. */
  predicate Before(p: Vector, x: int, y: int) {
    p.x < x || (p.x == x && p.y < y)
  }

  /** Source `j` has not ticked yet: it is as it was, still without a live beam, and the cell ahead is empty or lit. */
  ghost predicate Waiting(g: Cells, objs: seq<Obj>, j: nat, o: Obj) {
    j < |objs| && objs[j] == o && o.kind.LaserObject? && !LiveChild(objs, j)
    && (Holds(g, Step(o.pos, o.kind.dir), None) || SegmentAt(g, objs, Step(o.pos, o.kind.dir)))
  }

  /**
   * What one emit leaves alone: a live segment stays in its cell, an empty
   * cell stays empty or gets a segment, another due source and a dead beam
   * stay as they were; and the emitting source, with no live beam and an
   * empty or lit cell ahead, has a segment ahead afterwards.
   */
  lemma EmittedKeeps(g: Cells, a: seq<Obj>, b: seq<Obj>, g': Cells, w: nat, h: nat, id: nat, time: int)
    requires Consistent(g, a, w, h) && id < |a| && !a[id].destroyed && a[id].kind.LaserObject?
    requires Emitted(a, g, b, g', w, h, id, time)
    ensures |a| <= |b| && |g'| == |g| && forall y :: 0 <= y < |g| ==> |g'[y]| == |g[y]|
    ensures forall q :: SegmentAt(g, a, q) ==> SegmentAt(g', b, q) && Get(g', q) == Get(g, q)
    ensures forall q :: InBounds(w, h, q) && Get(g, q).None? ==> Get(g', q).None? || SegmentAt(g', b, q)
    ensures forall j :: 0 <= j < |a| && j != id && a[j].kind.LaserObject? && Due(a[j], time) ==> b[j] == a[j]
    ensures forall j :: 0 <= j < |a| && j != id && a[j].kind.LaserObject? && !LiveChild(a, j) ==>
      b[j].kind.LaserObject? && !LiveChild(b, j)
    ensures var next := Step(a[id].pos, a[id].kind.dir);
      !LiveChild(a, id) && InBounds(w, h, next) && (Get(g, next).None? || SegmentAt(g, a, next)) ==>
      SegmentAt(g', b, next)
  {
    var src := a[id];
    var next := Step(src.pos, src.kind.dir);
    forall j | 0 <= j < |a| && j != id && a[j].kind.LaserObject? && !LiveChild(a, j)
      ensures b[j].kind.LaserObject? && !LiveChild(b, j)
    {
      assert ObjOk(g, a, w, h, j);
    }
    if !(LiveChild(a, id) || !InBounds(w, h, next)) && Get(g, next).Some? {
      var t := Get(g, next).value;
      if Matches(a[t], src.kind.color) {
        forall q | SegmentAt(g, a, q)
          ensures SegmentAt(g', b, q) && Get(g', q) == Get(g, q)
        {
          assert q != next;
        }
      }
    }
  }

  /**
   * One visit of the object pass, at column `x`, row `y`, where object `id`
   * ticked: sources visited before keep the segment ahead of them, the
   * source standing here gets one, and the sources still to come wait.
   */
  lemma TickStep(g0: Cells, o0: seq<Obj>, g1: Cells, o1: seq<Obj>, g2: Cells, o2: seq<Obj>,
                 w: nat, h: nat, id: nat, x: int, y: int, time: int)
    requires Consistent(g1, o1, w, h) && Stays(o0, o1) && id < |o1| && !o1[id].destroyed && o1[id].pos == Vector(x, y)
    requires forall j :: 0 <= j < |o0| && !o0[j].destroyed ==> InBounds(w, h, o0[j].pos)
    requires !Due(o1[id], time) ==> o2 == o1 && g2 == g1
    requires Due(o1[id], time) ==> Emitted(o1, g1, o2, g2, w, h, id, time)
    requires forall j :: 0 <= j < |o0| && Ready(g0, o0, w, h, j, time) ==>
      if Before(o0[j].pos, x, y) then SegmentAt(g1, o1, Step(o0[j].pos, o0[j].kind.dir))
      else Waiting(g1, o1, j, o0[j])
    ensures forall j :: 0 <= j < |o0| && Ready(g0, o0, w, h, j, time) ==>
      if Before(o0[j].pos, x, y + 1) then SegmentAt(g2, o2, Step(o0[j].pos, o0[j].kind.dir))
      else Waiting(g2, o2, j, o0[j])
  {
    if Due(o1[id], time) {
      EmittedKeeps(g1, o1, o2, g2, w, h, id, time);
    }
    forall j | 0 <= j < |o0| && Ready(g0, o0, w, h, j, time)
      ensures if Before(o0[j].pos, x, y + 1) then SegmentAt(g2, o2, Step(o0[j].pos, o0[j].kind.dir))
              else Waiting(g2, o2, j, o0[j])
    {
      var next := Step(o0[j].pos, o0[j].kind.dir);
      if !Before(o0[j].pos, x, y) {
        assert Waiting(g1, o1, j, o0[j]);
        assert ObjOk(g1, o1, w, h, j);
        if o0[j].pos == Vector(x, y) {
          assert ObjOk(g1, o1, w, h, id);
          assert j == id;
        }
      }
    }
  }

  /** A visit to an empty cell: no source stands there, so nothing changes for any of them. */
  lemma EmptyStep(g0: Cells, o0: seq<Obj>, g1: Cells, o1: seq<Obj>, w: nat, h: nat, x: int, y: int, time: int)
    requires Consistent(g1, o1, w, h) && Holds(g1, Vector(x, y), None)
    requires forall j :: 0 <= j < |o0| && Ready(g0, o0, w, h, j, time) ==>
      if Before(o0[j].pos, x, y) then SegmentAt(g1, o1, Step(o0[j].pos, o0[j].kind.dir))
      else Waiting(g1, o1, j, o0[j])
    ensures forall j :: 0 <= j < |o0| && Ready(g0, o0, w, h, j, time) ==>
      if Before(o0[j].pos, x, y + 1) then SegmentAt(g1, o1, Step(o0[j].pos, o0[j].kind.dir))
      else Waiting(g1, o1, j, o0[j])
  {
    forall j | 0 <= j < |o0| && Ready(g0, o0, w, h, j, time) && !Before(o0[j].pos, x, y)
      ensures o0[j].pos != Vector(x, y)
    {
      assert Waiting(g1, o1, j, o0[j]);
      assert ObjOk(g1, o1, w, h, j);
    }
  }

  /** Laying a new segment ahead of a source with no live beam keeps the grid and arena in agreement. */
  lemma SpawnConsistent(g: Cells, objs: seq<Obj>, w: nat, h: nat, id: nat, seg: Obj)
    requires Consistent(g, objs, w, h) && id < |objs| && !objs[id].destroyed && objs[id].kind.LaserObject?
    requires InBounds(w, h, seg.pos) && Get(g, seg.pos).None? && IsLaser(seg) && !seg.destroyed
    requires seg.kind.child.None?
    ensures var n := objs[id := objs[id].(kind := objs[id].kind.(child := Some(|objs|)))] + [seg];
      Consistent(Set(g, seg.pos, Some(|objs|)), n, w, h)
  {
    var N := |objs|;
    var n := objs[id := objs[id].(kind := objs[id].kind.(child := Some(N)))] + [seg];
    var g' := Set(g, seg.pos, Some(N));
    forall y, x | 0 <= y < h && 0 <= x < w
      ensures CellOk(g', n, y, x)
    {
      assert CellOk(g, objs, y, x);
    }
    forall j | 0 <= j < |n|
      ensures ObjOk(g', n, w, h, j)
    {
      if j < N {
        assert ObjOk(g, objs, w, h, j);
        if !objs[j].destroyed {
          assert objs[j].pos != seg.pos;
        }
      }
    }
  }

  function Moved(objs: seq<Obj>, id: nat, to: Vector): seq<Obj>
    requires id < |objs|
  {
    objs[id := objs[id].(pos := to)]
  }

  /** The cell below is free for a falling object: empty, or holding a laser segment. */
  ghost predicate Open(g: Cells, objs: seq<Obj>, q: Vector)
    requires 0 <= q.y < |g| && 0 <= q.x < |g[q.y]|
  {
    Get(g, q).None? || (Get(g, q).value < |objs| && IsLaser(objs[Get(g, q).value]))
  }

  /** Every object of `a` stands in `b` where it stood, and stays destroyed if it was; `b` may hold more. */
  ghost predicate Stays(a: seq<Obj>, b: seq<Obj>) {
    |a| <= |b| && forall j :: 0 <= j < |a| ==> b[j].pos == a[j].pos && (a[j].destroyed ==> b[j].destroyed)
  }

  /** A tick with a gravity pass: every object of `a` is where it was or one row lower, and stays destroyed if it was. */
  ghost predicate Dropped(a: seq<Obj>, b: seq<Obj>) {
    |a| <= |b| && forall j :: 0 <= j < |a| ==>
      (b[j].pos == a[j].pos || b[j].pos == Step(a[j].pos, Down)) && (a[j].destroyed ==> b[j].destroyed)
  }

  lemma StaysTrans(a: seq<Obj>, b: seq<Obj>, c: seq<Obj>)
    requires Stays(a, b) && Stays(b, c)
    ensures Stays(a, c)
  {
  }

  /** Whether an object's tick emits at `time`: a segment older than the laser time, an emitter once the game is, a mirror lit that long. */
  predicate Due(o: Obj, time: int) {
    match o.kind
    case Block(_) => false
    case LaserObject(role, _, _, _) =>
      match role
      case Laser(creationTime) => time - creationTime > LaserTime
      case Emitter => time > LaserTime
      case Mirror(hitTime) => hitTime > 0 && time - hitTime > LaserTime
  }

  /** A segment made at `time` does not emit before the laser time has passed: a beam grows one cell per laser time. */
  lemma FreshSegmentWaits(pos: Vector, d: Dir, color: int, time: int, now: int)
    ensures Due(NewLaser(pos, d, color, time), now) <==> now > time + LaserTime
  {
  }

  /** A mirror that has not been hit never emits. */
  lemma DarkMirrorWaits(o: Obj, now: int)
    requires IsMirror(o) && o.kind.role.hitTime < 0
    ensures !Due(o, now)
  {
  }

  datatype Level = Level(size: Vector, data: seq<seq<nat>>)

  ghost predicate LevelsFit(levels: seq<Level>, w: nat, h: nat) {
    forall i :: 0 <= i < |levels| ==> levels[i].size == Vector(w, h) && Rect(levels[i].data, w, h)
  }

  /** The cell holds an object that can be swapped. */
  ghost predicate Movable(g: Cells, objs: seq<Obj>, p: Vector) {
    0 <= p.y < |g| && 0 <= p.x < |g[p.y]| && Get(g, p).Some? && Get(g, p).value < |objs|
    && Swappable(objs[Get(g, p).value])
  }

  class Scene {
    const width: nat
    const height: nat
    const levels: seq<Level>
    var level: nat
    var grid: Cells
    var objs: seq<Obj>
    var time: int
    var timeSinceLoad: int
    var timeSinceMove: int
    var selected: Option<Vector>

    /** The grid and arena agree, the level table fits the grid, and the selection is on the grid. */
    ghost predicate Valid()
      reads this`grid, this`objs, this`level, this`selected
    {
      Consistent(grid, objs, width, height) && LevelsFit(levels, width, height) && level < |levels|
      && (selected.Some? ==> InBounds(width, height, selected.value))
    }

    /**
     * destroy, with onDestroy: the object leaves its cell and, when it is a
     * beam source, destroys its beam segment by segment and forgets it.
     */
    method Destroy(id: nat)
      requires Consistent(grid, objs, width, height) && id < |objs|
      modifies this`objs, this`grid
      decreases |objs| - id
      ensures Consistent(grid, objs, width, height)
      ensures RetiredIn(old(objs), objs, Chain(old(objs), id))
      ensures ClearedIn(old(grid), grid, Chain(old(objs), id))
    {
      if objs[id].destroyed {
        RetiredNone(objs);
        ClearedNone(grid);
        return;
      }
      ghost var o0, g0 := objs, grid;
      var o := objs[id];
      MarkConsistent(grid, objs, width, height, id);
      objs := objs[id := o.(destroyed := true)];
      grid := Set(grid, o.pos, None);
      ghost var o1, g1 := objs, grid;
      if o.kind.LaserObject? {
        assert ObjOk(g0, o0, width, height, id);
        var c := o.kind.child;
        if c.Some? {
          Destroy(c.value);
        } else {
          RetiredNone(objs);
          ClearedNone(grid);
        }
        assert objs[id] == o1[id];
        RetouchConsistent(grid, objs, width, height, id, objs[id].(kind := objs[id].kind.(child := None)));
        objs := objs[id := objs[id].(kind := objs[id].kind.(child := None))];
      } else {
        RetiredNone(objs);
        ClearedNone(grid);
      }
      DestroyStep(g0, o0, width, height, id, grid, objs);
    }

    /** onMove: a beam source destroys its beam and forgets it; a mirror goes dark; nothing else reacts. */
    method OnMove(id: nat)
      requires Consistent(grid, objs, width, height) && id < |objs|
      modifies this`objs, this`grid
      ensures Consistent(grid, objs, width, height)
      ensures RetiredIn(old(objs)[id := Unhooked(old(objs[id]))], objs, Beam(old(objs), id))
      ensures ClearedIn(old(grid), grid, Beam(old(objs), id))
    {
      ghost var o0 := objs;
      if !objs[id].kind.LaserObject? {
        RetiredNone(objs);
        ClearedNone(grid);
        return;
      }
      assert ObjOk(grid, objs, width, height, id);
      var c := objs[id].kind.child;
      if c.Some? {
        Destroy(c.value);
      } else {
        RetiredNone(objs);
        ClearedNone(grid);
      }
      assert objs[id] == o0[id];
      RetouchConsistent(grid, objs, width, height, id, Unhooked(objs[id]));
      objs := objs[id := Unhooked(objs[id])];
    }

    /**
     * emit: a source whose beam is gone looks at the next cell along its
     * direction. An empty cell gets one new laser segment, which becomes the
     * source's child; an occupied cell's object is hit, on every call. A
     * block of the beam's colour is destroyed by the hit.
     */
    method Emit(id: nat)
      requires Valid() && id < |objs| && !objs[id].destroyed && objs[id].kind.LaserObject?
      modifies this`objs, this`grid
      ensures Valid()
      ensures Emitted(old(objs), old(grid), objs, grid, width, height, id, time)
    {
      var src := objs[id];
      assert ObjOk(grid, objs, width, height, id);
      if src.kind.child.Some? && !objs[src.kind.child.value].destroyed {
        return;
      }
      var next := Step(src.pos, src.kind.dir);
      if !InBounds(width, height, next) {
        return;
      }
      var cell := Get(grid, next);
      if cell.None? {
        var seg := NewLaser(next, src.kind.dir, src.kind.color, time);
        SpawnConsistent(grid, objs, width, height, id, seg);
        objs := objs[id := src.(kind := src.kind.(child := Some(|objs|)))] + [seg];
        grid := Set(grid, next, Some(|objs| - 1));
      } else {
        var t := cell.value;
        assert CellOk(grid, objs, next.y, next.x);
        if Matches(objs[t], src.kind.color) {
          ghost var o0, g0 := objs, grid;
          assert Chain(objs, t) == {t};
          Destroy(t);
          assert objs == o0[t := Retired(o0[t])];
          forall y | 0 <= y < height
            ensures grid[y] == Set(g0, next, None)[y]
          {
            forall x | 0 <= x < width
              ensures grid[y][x] == Set(g0, next, None)[y][x]
            {
              assert CellOk(g0, o0, y, x);
            }
          }
        } else {
          assert ObjOk(grid, objs, width, height, t);
          RetouchConsistent(grid, objs, width, height, t, Hit(objs[t], time));
          objs := objs[t := Hit(objs[t], time)];
        }
      }
    }

    /** The placement half of move: the object stands at `to`; the cell it left is emptied only if it still holds it. */
    method Place(id: nat, to: Vector)
      requires id < |objs| && Rect(grid, width, height)
      requires InBounds(width, height, objs[id].pos) && InBounds(width, height, to)
      modifies this`objs, this`grid
      ensures objs == Moved(old(objs), id, to)
      ensures grid == Set(if Get(old(grid), old(objs[id].pos)) == Some(id) then Set(old(grid), old(objs[id].pos), None)
                          else old(grid), to, Some(id))
    {
      if Get(grid, objs[id].pos) == Some(id) {
        grid := Set(grid, objs[id].pos, None);
      }
      objs := Moved(objs, id, to);
      grid := Set(grid, to, Some(id));
    }

    /** move onto an empty cell: the object steps there, its old cell is emptied, and its onMove runs. */
    method Move(id: nat, to: Vector)
      requires Valid() && id < |objs| && !objs[id].destroyed
      requires InBounds(width, height, to) && Get(grid, to).None?
      modifies this`objs, this`grid
      ensures Valid() && |objs| == old(|objs|)
      ensures objs[id] == Unhooked(old(objs[id]).(pos := to)) && Get(grid, to) == Some(id)
      ensures Holds(grid, old(objs[id].pos), None)
      ensures RetiredIn(Moved(old(objs), id, to)[id := objs[id]], objs, Beam(old(objs), id))
      ensures InBounds(width, height, old(objs[id].pos))
      ensures ClearedIn(Set(Set(old(grid), old(objs[id].pos), None), to, Some(id)), grid, Beam(old(objs), id))
    {
      var from := objs[id].pos;
      MoveConsistent(grid, objs, width, height, id, to);
      Place(id, to);
      ghost var g1, o1 := grid, objs;
      assert Beam(o1, id) == Beam(old(objs), id) by {
        assert ObjOk(old(grid), old(objs), width, height, id);
        if objs[id].kind.LaserObject? && objs[id].kind.child.Some? {
          ChainFrame(old(objs), o1, objs[id].kind.child.value);
        }
      }
      OnMove(id);
      assert Get(g1, from).None?;
    }

    /** doGravity: the object falls one row onto an empty cell, or onto a laser segment, which it destroys first. */
    method DoGravity(id: nat)
      requires Valid() && id < |objs| && !objs[id].destroyed && HasGravity(objs[id])
      modifies this`objs, this`grid
      ensures Valid() && |objs| == old(|objs|) && InBounds(width, height, old(objs[id].pos))
      ensures var below := Step(old(objs[id].pos), Down);
        objs[id].pos == (if InBounds(width, height, below) && Open(old(grid), old(objs), below)
                         then below else old(objs[id].pos))
      ensures var below := Step(old(objs[id].pos), Down);
        var falls := InBounds(width, height, below) && Open(old(grid), old(objs), below);
        var s := if falls && Get(old(grid), below).Some? then Chain(old(objs), Get(old(grid), below).value) else {};
        && (falls ==>
              && RetiredIn(old(objs)[id := Unhooked(old(objs[id])).(pos := below)], objs, s + Beam(old(objs), id))
              && ClearedIn(Set(Set(old(grid), old(objs[id].pos), None), below, Some(id)), grid, s + Beam(old(objs), id)))
        && (!falls ==> objs == old(objs) && grid == old(grid))
      ensures forall j :: 0 <= j < |objs| && j != id ==> objs[j].pos == old(objs[j].pos)
      ensures forall j :: 0 <= j < |objs| ==> Kept(old(objs[j]), objs[j])
      ensures !objs[id].destroyed
    {
      assert ObjOk(grid, objs, width, height, id);
      var below := Step(objs[id].pos, Down);
      if InBounds(width, height, below) {
        var ob := Get(grid, below);
        assert CellOk(grid, objs, below.y, below.x);
        ghost var s: set<nat> := {};
        if ob.Some? && IsLaser(objs[ob.value]) {
          ChainLasers(grid, objs, width, height, ob.value);
          ChainClosed(objs, ob.value);
          s := Chain(objs, ob.value);
          Destroy(ob.value);
          ob := None;
        } else {
          RetiredNone(objs);
          ClearedNone(grid);
        }
        if ob.None? {
          ghost var o1, g1 := objs, grid;
          Move(id, below);
          FallRetired(old(grid), old(objs), width, height, id, below, s, g1, o1, grid, objs);
          BeamLasers(old(grid), old(objs), width, height, id);
          RetiredKept(old(objs), id, below, s + Beam(old(objs), id), objs);
        }
      }
    }

    /**
     * The gravity pass of tick: columns left to right, each from the bottom
     * row up, every object with gravity tries to fall, so each object ends
     * where it was or one row lower.
     */
    method Gravity()
      requires Valid()
      modifies this`objs, this`grid
      ensures Valid() && Settled(old(objs), objs)
    {
      ghost var o0 := objs;
      var x := 0;
      while x < width
        invariant 0 <= x <= width
        invariant Valid() && Fell(o0, objs, width, height, x, height - 1)
      {
        var y: int := height - 1;
        while y >= 0
          invariant -1 <= y < height
          invariant Valid() && Fell(o0, objs, width, height, x, y)
        {
          var cell := Get(grid, Vector(x, y));
          assert CellOk(grid, objs, y, x);
          if cell.Some? && HasGravity(objs[cell.value]) {
            ghost var o1 := objs;
            DoGravity(cell.value);
            FellStep(o0, o1, objs, cell.value, width, height, x, y);
          } else {
            FellWeaken(o0, objs, width, height, x, y, x, y - 1);
          }
          y := y - 1;
        }
        FellWeaken(o0, objs, width, height, x, -1, x + 1, height - 1);
        x := x + 1;
      }
      FellSettled(o0, objs, width, height);
    }

    /** tick of one object: it emits when it is due (see Due); a block never ticks. */
    method TickObject(id: nat)
      requires Valid() && id < |objs| && !objs[id].destroyed
      modifies this`objs, this`grid
      ensures Valid() && Stays(old(objs), objs) && |objs| <= old(|objs|) + 1
      ensures !Due(old(objs[id]), time) ==> objs == old(objs) && grid == old(grid)
      ensures Due(old(objs[id]), time) ==> Emitted(old(objs), old(grid), objs, grid, width, height, id, time)
    {
      if Due(objs[id], time) {
        Emit(id);
      }
    }

    /** The object pass of tick: every object on the grid ticks, column by column, top to bottom. */
    method TickObjects()
      requires Valid()
      modifies this`objs, this`grid
      ensures Valid() && Stays(old(objs), objs)
      ensures Idle(old(objs), time) ==> objs == old(objs) && grid == old(grid)
      ensures forall j :: 0 <= j < old(|objs|) && Ready(old(grid), old(objs), width, height, j, time) ==>
        SegmentAt(grid, objs, Step(old(objs[j].pos), old(objs[j].kind.dir)))
    {
      ghost var o0, g0 := objs, grid;
      forall j | 0 <= j < |o0| && !o0[j].destroyed
        ensures InBounds(width, height, o0[j].pos)
      {
        assert ObjOk(g0, o0, width, height, j);
      }
      var x := 0;
      while x < width
        invariant 0 <= x <= width
        invariant Valid() && Stays(o0, objs)
        invariant Idle(o0, time) ==> objs == o0 && grid == g0
        invariant forall j :: 0 <= j < |o0| && Ready(g0, o0, width, height, j, time) ==>
          if Before(o0[j].pos, x, 0) then SegmentAt(grid, objs, Step(o0[j].pos, o0[j].kind.dir))
          else Waiting(grid, objs, j, o0[j])
      {
        var y := 0;
        while y < height
          invariant 0 <= y <= height
          invariant Valid() && Stays(o0, objs)
          invariant Idle(o0, time) ==> objs == o0 && grid == g0
          invariant forall j :: 0 <= j < |o0| && Ready(g0, o0, width, height, j, time) ==>
            if Before(o0[j].pos, x, y) then SegmentAt(grid, objs, Step(o0[j].pos, o0[j].kind.dir))
            else Waiting(grid, objs, j, o0[j])
        {
          var cell := Get(grid, Vector(x, y));
          assert CellOk(grid, objs, y, x);
          if cell.Some? {
            ghost var o1, g1 := objs, grid;
            TickObject(cell.value);
            StaysTrans(o0, o1, objs);
            TickStep(g0, o0, g1, o1, grid, objs, width, height, cell.value, x, y, time);
          } else {
            EmptyStep(g0, o0, grid, objs, width, height, x, y, time);
          }
          y := y + 1;
        }
        x := x + 1;
      }
    }

    /** tick: every object ticks, objects fall every laser time since the last swap, and the clocks advance. */
    method Tick()
      requires Valid()
      modifies this`objs, this`grid, this`time, this`timeSinceLoad, this`timeSinceMove
      ensures Valid()
      ensures time == old(time) + 1 && timeSinceLoad == old(timeSinceLoad) + 1
      ensures timeSinceMove == old(timeSinceMove) + 1
      ensures !(old(timeSinceMove) > 0 && old(timeSinceMove) % LaserTime == 0) ==> Stays(old(objs), objs)
      ensures old(timeSinceMove) > 0 && old(timeSinceMove) % LaserTime == 0 ==> Dropped(old(objs), objs)
      ensures !(old(timeSinceMove) > 0 && old(timeSinceMove) % LaserTime == 0) ==>
        && (Idle(old(objs), old(time)) ==> objs == old(objs) && grid == old(grid))
        && forall j :: 0 <= j < old(|objs|) && Ready(old(grid), old(objs), width, height, j, old(time)) ==>
             SegmentAt(grid, objs, Step(old(objs[j].pos), old(objs[j].kind.dir)))
    {
      TickObjects();
      if timeSinceMove > 0 && timeSinceMove % LaserTime == 0 {
        ghost var mid := objs;
        Gravity();
        StaysSettled(old(objs), mid, objs);
      }
      time := time + 1;
      timeSinceLoad := timeSinceLoad + 1;
      timeSinceMove := timeSinceMove + 1;
    }

    /**
     * swap: when both cells hold swappable objects they trade places, each
     * drops its beam (onMove), and the move clock restarts. Otherwise
     * nothing happens.
     */
    method Swap(p1: Vector, p2: Vector)
      requires Valid() && InBounds(width, height, p1) && InBounds(width, height, p2) && p1 != p2
      modifies this`objs, this`grid, this`timeSinceMove
      ensures Valid() && |objs| == old(|objs|)
      ensures old(Movable(grid, objs, p1) && Movable(grid, objs, p2)) ==>
        var a, b := old(Get(grid, p1).value), old(Get(grid, p2).value);
        Get(grid, p1) == Some(b) && Get(grid, p2) == Some(a)
        && objs[a] == Unhooked(old(objs[a]).(pos := p2)) && objs[b] == Unhooked(old(objs[b]).(pos := p1))
        && (forall j :: 0 <= j < |objs| && j != a && j != b ==> objs[j].pos == old(objs[j].pos))
        && RetiredIn(old(objs)[a := Unhooked(old(objs[a]).(pos := p2))][b := Unhooked(old(objs[b]).(pos := p1))],
                     objs, Beam(old(objs), a) + Beam(old(objs), b))
        && ClearedIn(Set(Set(old(grid), p1, Some(b)), p2, Some(a)), grid, Beam(old(objs), a) + Beam(old(objs), b))
        && timeSinceMove == 0
      ensures !old(Movable(grid, objs, p1) && Movable(grid, objs, p2)) ==>
        objs == old(objs) && grid == old(grid) && timeSinceMove == old(timeSinceMove)
    {
      var d1 := Get(grid, p1);
      var d2 := Get(grid, p2);
      assert CellOk(grid, objs, p1.y, p1.x) && CellOk(grid, objs, p2.y, p2.x);
      if d1.Some? && d2.Some? && Swappable(objs[d1.value]) && Swappable(objs[d2.value]) {
        var a, b := d1.value, d2.value;
        Exchange(a, b);
        ghost var ox, gx := objs, grid;
        MovedHooks(a, b);
        SwapRetired(old(grid), old(objs), a, b, p1, p2, gx, ox, grid, objs);
        assert ObjOk(grid, objs, width, height, a) && ObjOk(grid, objs, width, height, b);
        timeSinceMove := 0;
      }
    }

    /** The placement halves of the two moves of a swap: each object stands on the other's cell. */
    method Exchange(a: nat, b: nat)
      requires Valid() && a < |objs| && b < |objs| && !objs[a].destroyed && !objs[b].destroyed
      requires objs[a].pos != objs[b].pos
      modifies this`objs, this`grid
      ensures Valid()
      ensures objs == Moved(Moved(old(objs), a, old(objs[b].pos)), b, old(objs[a].pos))
      ensures InBounds(width, height, old(objs[a].pos)) && InBounds(width, height, old(objs[b].pos))
      ensures grid == Set(Set(Set(old(grid), old(objs[a].pos), None), old(objs[b].pos), Some(a)), old(objs[a].pos), Some(b))
    {
      ExchangeConsistent(grid, objs, width, height, a, b);
      var p1, p2 := objs[a].pos, objs[b].pos;
      Place(a, p2);
      Place(b, p1);
    }

    /** The onMove halves of the two moves of a swap: both objects let go of their beams, which vanish. */
    method MovedHooks(a: nat, b: nat)
      requires Valid() && a < |objs| && b < |objs| && a != b
      requires !objs[a].destroyed && !objs[b].destroyed && !IsLaser(objs[a]) && !IsLaser(objs[b])
      modifies this`objs, this`grid
      ensures Valid() && |objs| == old(|objs|)
      ensures objs[a] == Unhooked(old(objs[a])) && objs[b] == Unhooked(old(objs[b]))
      ensures forall j :: 0 <= j < |objs| ==> objs[j].pos == old(objs[j].pos)
      ensures RetiredIn(old(objs)[a := Unhooked(old(objs[a]))][b := Unhooked(old(objs[b]))], objs,
                        Beam(old(objs), a) + Beam(old(objs), b))
      ensures ClearedIn(old(grid), grid, Beam(old(objs), a) + Beam(old(objs), b))
    {
      BeamLasers(grid, objs, width, height, a);
      OnMove(a);
      ghost var o2, g2 := objs, grid;
      assert !objs[b].destroyed && objs[b] == old(objs[b]);
      BeamLasers(grid, objs, width, height, b);
      OnMove(b);
      BeamsRetired(old(grid), old(objs), width, height, a, b, g2, o2, grid, objs);
    }

    /** init: the scene starts on the first level with the clock at zero and nothing selected. */
    constructor(w: nat, h: nat, levels: seq<Level>)
      requires |levels| > 0 && LevelsFit(levels, w, h)
      ensures Valid() && Loaded() && level == 0 && time == 0 && selected.None?
      ensures width == w && height == h && this.levels == levels
    {
      width, height, this.levels := w, h, levels;
      level, grid, objs := 0, [], [];
      time, timeSinceLoad, timeSinceMove := 0, 0, 0;
      selected := None;
      new;
      Load(0);
    }

    /** Every cell holds what its level code places there, every object is fresh, and the clocks since load and move are reset. */
    ghost predicate Loaded()
      requires Valid()
      reads this`grid, this`objs, this`level, this`selected, this`timeSinceLoad, this`timeSinceMove
    {
      var data := levels[level].data;
      && (forall y, x :: 0 <= y < height && 0 <= x < width ==> Loads(grid[y][x], data[y][x], objs, Vector(x, y)))
      && (forall j :: 0 <= j < |objs| ==> Fresh(objs[j]))
      && timeSinceLoad == 0 && timeSinceMove == 0
    }

    /** loadObject: decode the level code of one cell. */
    static method LoadObject(data: seq<seq<nat>>, pos: Vector) returns (o: Option<Obj>)
      requires 0 <= pos.y < |data| && 0 <= pos.x < |data[pos.y]|
      ensures Decode(Get(data, pos)) == Empty ==> o.None?
      ensures Decode(Get(data, pos)) != Empty ==> o == Some(Spawn(Decode(Get(data, pos)), pos))
    {
      var s := Decode(Get(data, pos));
      if s == Empty {
        return None;
      }
      return Some(Spawn(s, pos));
    }

    /** load: the level's grid is rebuilt row by row from its codes and the clocks since load and move restart. */
    method Load(n: nat)
      requires LevelsFit(levels, width, height) && n < |levels|
      requires selected.Some? ==> InBounds(width, height, selected.value)
      modifies this`level, this`grid, this`objs, this`timeSinceLoad, this`timeSinceMove
      ensures Valid() && level == n && Loaded()
    {
      level := n;
      var data := levels[n].data;
      assert Rect(data, width, height);
      timeSinceLoad, timeSinceMove := 0, 0;
      LoadRows(data);
      LoadedConsistent(grid, data, objs, width, height);
    }

    /** The row loop of load: a fresh grid and arena, filled row by row from the level data. */
    method LoadRows(data: seq<seq<nat>>)
      requires Rect(data, width, height)
      modifies this`grid, this`objs
      ensures |grid| == height && RowsLoaded(grid, data, objs, height, width) && AllPlaced(grid, [], objs, height, width)
    {
      grid, objs := [], [];
      var y := 0;
      while y < height
        invariant 0 <= y <= height && |grid| == y
        invariant RowsLoaded(grid, data, objs, y, width) && AllPlaced(grid, [], objs, y, width)
      {
        var row := LoadRow(data, y);
        ghost var g0 := grid;
        grid := grid + [row];
        RowAppended(g0, data, objs, row, y, width);
        y := y + 1;
      }
    }

    /** One row of load: each cell of row `y` decoded in turn, its object appended to the arena. */
    method LoadRow(data: seq<seq<nat>>, y: nat) returns (row: seq<Option<nat>>)
      requires y < |data| && |data[y]| == width && |grid| == y
      requires RowsLoaded(grid, data, objs, y, width) && AllPlaced(grid, [], objs, y, width)
      modifies this`objs
      ensures |row| == width && RowsLoaded(grid, data, objs, y, width) && AllPlaced(grid, row, objs, y, width)
      ensures forall c :: 0 <= c < width ==> Loads(row[c], data[y][c], objs, Vector(c, y))
    {
      row := [];
      var x := 0;
      while x < width
        invariant 0 <= x <= width && |row| == x
        invariant RowsLoaded(grid, data, objs, y, width) && AllPlaced(grid, row, objs, y, width)
        invariant forall c :: 0 <= c < x ==> Loads(row[c], data[y][c], objs, Vector(c, y))
      {
        ghost var o0, r0 := objs, row;
        var o := LoadObject(data, Vector(x, y));
        if o.Some? {
          row := row + [Some(|objs|)];
          objs := objs + [o.value];
        } else {
          row := row + [None];
        }
        CellAppended(grid, data, o0, r0, objs, row, y, x, width);
        x := x + 1;
      }
    }

    /**
     * touch: only a swappable object reacts. With nothing selected it is
     * selected; touched again it is deselected; next to the selected cell
     * the two are swapped and the selection is dropped; anywhere else
     * nothing happens.
     */
    method Touch(x: int, y: int)
      requires Valid() && InBounds(width, height, Vector(x, y))
      modifies this`objs, this`grid, this`timeSinceMove, this`selected
      ensures Valid() && |objs| == old(|objs|)
      ensures !old(Movable(grid, objs, Vector(x, y))) ==> unchanged(this)
      ensures old(Movable(grid, objs, Vector(x, y))) && old(selected).None? ==>
        selected == Some(Vector(x, y)) && objs == old(objs) && grid == old(grid)
        && timeSinceMove == old(timeSinceMove)
      ensures old(Movable(grid, objs, Vector(x, y))) && old(selected) == Some(Vector(x, y)) ==>
        selected.None? && objs == old(objs) && grid == old(grid)
        && timeSinceMove == old(timeSinceMove)
      ensures (old(Movable(grid, objs, Vector(x, y))) && old(selected).Some?
               && old(selected.value) != Vector(x, y) && !Adjacent(old(selected.value), Vector(x, y)))
        ==> unchanged(this)
      ensures (old(Movable(grid, objs, Vector(x, y))) && old(selected).Some?
               && Adjacent(old(selected.value), Vector(x, y))) ==>
        var p1, p2 := old(selected.value), Vector(x, y);
        selected.None?
        && (old(Movable(grid, objs, p1)) ==>
              var a, b := old(Get(grid, p1).value), old(Get(grid, p2).value);
              Get(grid, p1) == Some(b) && Get(grid, p2) == Some(a)
              && objs[a] == Unhooked(old(objs[a]).(pos := p2)) && objs[b] == Unhooked(old(objs[b]).(pos := p1))
              && RetiredIn(old(objs)[a := Unhooked(old(objs[a]).(pos := p2))][b := Unhooked(old(objs[b]).(pos := p1))],
                           objs, Beam(old(objs), a) + Beam(old(objs), b))
              && ClearedIn(Set(Set(old(grid), p1, Some(b)), p2, Some(a)), grid, Beam(old(objs), a) + Beam(old(objs), b))
              && timeSinceMove == 0)
        && (!old(Movable(grid, objs, p1)) ==>
              objs == old(objs) && grid == old(grid) && timeSinceMove == old(timeSinceMove))
    {
      var v := Vector(x, y);
      var cell := Get(grid, v);
      assert CellOk(grid, objs, y, x);
      if cell.Some? && Swappable(objs[cell.value]) {
        if selected.None? {
          selected := Some(v);
        } else if v == selected.value {
          selected := None;
        } else if Adjacent(selected.value, v) {
          Swap(selected.value, v);
          selected := None;
        }
      }
    }
  }

  // ---------------------------------------------------------------------------
  // Loading

  /** A loaded object: on the board, not a segment, and with no beam. */
  predicate Fresh(o: Obj) {
    !o.destroyed && !IsLaser(o) && (o.kind.LaserObject? ==> o.kind.child.None?)
  }

  /** Every object a level code places is fresh, standing on its own cell; emitters and mirrors keep their code's direction and colour. */
  lemma SpawnFresh(s: Spec, pos: Vector)
    requires s != Empty
    ensures Fresh(Spawn(s, pos)) && Spawn(s, pos).pos == pos
    ensures s.BlockAt? ==> Spawn(s, pos).kind == Block(s.color)
    ensures s.EmitterAt? ==> Spawn(s, pos).kind == LaserObject(Emitter, s.dir, s.color, None)
    ensures s.MirrorAt? ==> Spawn(s, pos).kind == LaserObject(Mirror(-1), s.dir, s.color, None)
  {
  }

  /** Cell `cell` at `p` holds what level code `code` places there. */
  ghost predicate Loads(cell: Option<nat>, code: nat, objs: seq<Obj>, p: Vector) {
    if Decode(code) == Empty then cell.None?
    else cell.Some? && cell.value < |objs| && objs[cell.value] == Spawn(Decode(code), p)
  }

  /** While loading row `y`: object `j` stands on a finished row of `g`, or on the part of row `y` built so far. */
  ghost predicate PlacedIn(g: Cells, row: seq<Option<nat>>, objs: seq<Obj>, j: nat, y: int, w: nat)
    requires j < |objs|
  {
    var p := objs[j].pos;
    0 <= p.x < w
    && ((0 <= p.y < y && p.y < |g| && p.x < |g[p.y]| && g[p.y][p.x] == Some(j))
        || (p.y == y && p.x < |row| && row[p.x] == Some(j)))
  }

  /** The first `y` rows of the grid hold what the level codes place there. */
  ghost predicate RowsLoaded(g: Cells, data: seq<seq<nat>>, objs: seq<Obj>, y: nat, w: nat) {
    |g| >= y && |data| >= y
    && (forall r :: 0 <= r < y ==> |g[r]| == w && |data[r]| == w)
    && forall r, c :: 0 <= r < y && 0 <= c < w ==> Loads(g[r][c], data[r][c], objs, Vector(c, r))
  }

  /** Every object loaded so far is fresh and stands where the grid, or the row being built, holds it. */
  ghost predicate AllPlaced(g: Cells, row: seq<Option<nat>>, objs: seq<Obj>, y: int, w: nat) {
    forall j :: 0 <= j < |objs| ==> Fresh(objs[j]) && PlacedIn(g, row, objs, j, y, w)
  }

  /** One more cell of row `y` loaded: an object appended to the arena or an empty cell. */
  lemma CellAppended(g: Cells, data: seq<seq<nat>>, a: seq<Obj>, r0: seq<Option<nat>>,
                     b: seq<Obj>, row: seq<Option<nat>>, y: nat, x: nat, w: nat)
    requires RowsLoaded(g, data, a, y, w) && AllPlaced(g, r0, a, y, w) && |g| == y
    requires y < |data| && x < |data[y]| == w && |r0| == x
    requires forall c :: 0 <= c < x ==> Loads(r0[c], data[y][c], a, Vector(c, y))
    requires Decode(data[y][x]) == Empty ==> b == a && row == r0 + [None]
    requires Decode(data[y][x]) != Empty ==>
      b == a + [Spawn(Decode(data[y][x]), Vector(x, y))] && row == r0 + [Some(|a|)]
    ensures RowsLoaded(g, data, b, y, w) && AllPlaced(g, row, b, y, w)
    ensures forall c :: 0 <= c <= x ==> Loads(row[c], data[y][c], b, Vector(c, y))
  {
    if Decode(data[y][x]) != Empty {
      SpawnFresh(Decode(data[y][x]), Vector(x, y));
    }
    forall r, c | 0 <= r < y && 0 <= c < w
      ensures Loads(g[r][c], data[r][c], b, Vector(c, r))
    {
      assert Loads(g[r][c], data[r][c], a, Vector(c, r));
    }
    forall c | 0 <= c <= x
      ensures Loads(row[c], data[y][c], b, Vector(c, y))
    {
      if c < x {
        assert Loads(r0[c], data[y][c], a, Vector(c, y));
      }
    }
    forall j | 0 <= j < |b|
      ensures Fresh(b[j]) && PlacedIn(g, row, b, j, y, w)
    {
      if j < |a| {
        assert Fresh(a[j]) && PlacedIn(g, r0, a, j, y, w);
      }
    }
  }

  /** A finished row joins the grid. */
  lemma RowAppended(g: Cells, data: seq<seq<nat>>, objs: seq<Obj>, row: seq<Option<nat>>, y: nat, w: nat)
    requires RowsLoaded(g, data, objs, y, w) && AllPlaced(g, row, objs, y, w) && |g| == y
    requires y < |data| && |data[y]| == w && |row| == w
    requires forall c :: 0 <= c < w ==> Loads(row[c], data[y][c], objs, Vector(c, y))
    ensures RowsLoaded(g + [row], data, objs, y + 1, w) && AllPlaced(g + [row], [], objs, y + 1, w)
  {
    var g' := g + [row];
    forall r, c | 0 <= r <= y && 0 <= c < w
      ensures Loads(g'[r][c], data[r][c], objs, Vector(c, r))
    {
      if r < y {
        assert g'[r] == g[r];
      }
    }
    var y1 := y + 1;
    forall j | 0 <= j < |objs|
      ensures Fresh(objs[j]) && PlacedIn(g', [], objs, j, y1, w)
    {
      assert Fresh(objs[j]) && PlacedIn(g, row, objs, j, y, w);
    }
  }

  /** A fully loaded level: grid and arena agree. */
  lemma LoadedConsistent(g: Cells, data: seq<seq<nat>>, objs: seq<Obj>, w: nat, h: nat)
    requires RowsLoaded(g, data, objs, h, w) && AllPlaced(g, [], objs, h, w) && |g| == h
    ensures Consistent(g, objs, w, h)
    ensures forall y, x :: 0 <= y < h && 0 <= x < w ==> Loads(g[y][x], data[y][x], objs, Vector(x, y))
    ensures forall j :: 0 <= j < |objs| ==> Fresh(objs[j])
  {
    forall r, c | 0 <= r < h && 0 <= c < w
      ensures CellOk(g, objs, r, c)
    {
      assert Loads(g[r][c], data[r][c], objs, Vector(c, r));
      if g[r][c].Some? {
        SpawnFresh(Decode(data[r][c]), Vector(c, r));
      }
    }
    forall j | 0 <= j < |objs|
      ensures ObjOk(g, objs, w, h, j)
    {
      assert Fresh(objs[j]) && PlacedIn(g, [], objs, j, h, w);
    }
  }

  // ---------------------------------------------------------------------------
  // The gravity pass

  /** An object keeps what it is through a cascade, and once destroyed it stays destroyed. */
  predicate Kept(a: Obj, b: Obj) {
    IsLaser(a) == IsLaser(b) && (a.destroyed ==> b.destroyed) && (b.destroyed && !a.destroyed ==> IsLaser(a))
  }

  /** Cell `p` is among those the pass has visited when it stands at column `x`, row `y`. */
  predicate Visited(p: Vector, w: nat, h: nat, x: int, y: int) {
    InBounds(w, h, p) && (p.x < x || (p.x == x && y < p.y))
  }

  /** Object `j` is where it was, or fell one row from a visited cell. */
  ghost predicate FellAt(a: seq<Obj>, b: seq<Obj>, j: nat, w: nat, h: nat, x: int, y: int)
    requires j < |a| == |b|
  {
    Kept(a[j], b[j])
    && (b[j].pos == a[j].pos
        || (b[j].pos == Step(a[j].pos, Down) && HasGravity(a[j]) && !a[j].destroyed && Visited(a[j].pos, w, h, x, y)))
  }

  ghost predicate Fell(a: seq<Obj>, b: seq<Obj>, w: nat, h: nat, x: int, y: int) {
    |a| == |b| && forall j :: 0 <= j < |a| ==> FellAt(a, b, j, w, h, x, y)
  }

  /** After a gravity pass: each object stayed or fell exactly one row, and only live objects with gravity fell. */
  ghost predicate Settled(a: seq<Obj>, b: seq<Obj>) {
    |a| == |b| && forall j :: 0 <= j < |a| ==> SettledAt(a, b, j)
  }

  ghost predicate SettledAt(a: seq<Obj>, b: seq<Obj>, j: nat)
    requires j < |a| == |b|
  {
    Kept(a[j], b[j])
    && (b[j].pos == a[j].pos || (b[j].pos == Step(a[j].pos, Down) && HasGravity(a[j]) && !a[j].destroyed))
  }

  lemma StaysSettled(a: seq<Obj>, m: seq<Obj>, b: seq<Obj>)
    requires Stays(a, m) && Settled(m, b)
    ensures Dropped(a, b)
  {
    forall j | 0 <= j < |a|
      ensures (b[j].pos == a[j].pos || b[j].pos == Step(a[j].pos, Down)) && (a[j].destroyed ==> b[j].destroyed)
    {
      assert SettledAt(m, b, j);
    }
  }

  lemma FellWeaken(a: seq<Obj>, b: seq<Obj>, w: nat, h: nat, x: int, y: int, x': int, y': int)
    requires Fell(a, b, w, h, x, y)
    requires x < x' || (x == x' && y' <= y)
    ensures Fell(a, b, w, h, x', y')
  {
    forall j | 0 <= j < |a|
      ensures FellAt(a, b, j, w, h, x', y')
    {
      assert FellAt(a, b, j, w, h, x, y);
    }
  }

  /** Visiting cell (x, y): its object falls at most once, all others keep their place. */
  lemma FellStep(o: seq<Obj>, a: seq<Obj>, b: seq<Obj>, id: nat, w: nat, h: nat, x: int, y: int)
    requires Fell(o, a, w, h, x, y) && |b| == |a| && id < |a| && a[id].pos == Vector(x, y) && InBounds(w, h, a[id].pos)
    requires !a[id].destroyed && HasGravity(a[id])
    requires forall j :: 0 <= j < |b| && j != id ==> b[j].pos == a[j].pos
    requires forall j :: 0 <= j < |b| ==> Kept(a[j], b[j])
    requires b[id].pos == a[id].pos || b[id].pos == Step(a[id].pos, Down)
    ensures Fell(o, b, w, h, x, y - 1)
  {
    var y1 := y - 1;
    forall j | 0 <= j < |o|
      ensures FellAt(o, b, j, w, h, x, y1)
    {
      assert FellAt(o, a, j, w, h, x, y) && Kept(a[j], b[j]);
    }
  }

  lemma FellSettled(a: seq<Obj>, b: seq<Obj>, w: nat, h: nat)
    requires Fell(a, b, w, h, w, h - 1)
    ensures Settled(a, b)
  {
    forall j | 0 <= j < |a|
      ensures SettledAt(a, b, j)
    {
      assert FellAt(a, b, j, w, h, w, h - 1);
    }
  }
}
