/** A player's partial view.  A view is built by a list of acts; which acts are taken depends on
    the ground and the player's own tanks alone, and only a reveal act reads anything else. */
module Vision {
  import opened Basics
  import opened Boards

  // ---------------------------------------------------------------- rays

  /** Where one sample of a ray falls: off the board, half-way between two cells (skipped), or
      nearest to a cell, exactly on its centre line or not. */
  datatype Sample = Miss | Between | Near(pos: Vec2, exact: bool)

  const ORTHOGONAL_RAYS := 7
  const DIAGONAL_RAYS := 9
  /** Slopes and sizes are kept as integers over these denominators. */
  const SLOPE_UNIT := 6
  const SIZE_UNIT := 100000000

  /** orthogonal_slopes: 1, 1/2, 1/3, 0, -1/3, -1/2, -1. */
  const ORTHOGONAL_SLOPES: seq<int> := [6, 3, 2, 0, -2, -3, -6]
  const ORTHOGONAL_DISTS: seq<nat> := [2, 2, 3, 4, 3, 2, 2]
  const DIAGONAL_SLOPES: seq<(nat, nat)> := [(0, 1), (1, 3), (1, 2), (2, 3), (1, 1), (3, 2), (2, 1), (3, 1), (1, 0)]
  const DIAGONAL_SIZES: seq<nat> :=
    [100000000, 316227766, 223606790, 360555130, 141421360, 360555130, 223606790, 316227766, 100000000]
  const DIAGONAL_DISTS: seq<nat> := [2, 1, 1, 1, 3, 1, 1, 1, 2]

  function RayCount(barrel: u8): nat {
    if barrel % 2 == 0 then ORTHOGONAL_RAYS else DIAGONAL_RAYS
  }

  /** The number of samples along a ray; a diagonal ray advances by half a cell per sample. */
  function RayLength(barrel: u8, ray: nat): nat
    requires ray < RayCount(barrel)
  {
    if barrel % 2 == 0 then ORTHOGONAL_DISTS[ray]
    else 2 * DIAGONAL_DISTS[ray] * DIAGONAL_SIZES[ray] / SIZE_UNIT
  }

  /** The cell nearest to p along the primary axis and sec sixths of a cell along the other one.  A
      negative coordinate is off the board: the source converts it to an unsigned integer. */
  function NearestCell(width: u8, height: u8, vertical: bool, p: int, sec: int): Sample {
    var pBound := if vertical then height - 1 else width - 1;
    var sBound := if vertical then width - 1 else height - 1;
    if p < 0 || p > pBound || sec < 0 then Miss
    else if 2 * (sec % SLOPE_UNIT) == SLOPE_UNIT then Between
    else
      var s := sec / SLOPE_UNIT + (if 2 * (sec % SLOPE_UNIT) > SLOPE_UNIT then 1 else 0);
      if s > sBound then Miss
      else Near(if vertical then Vec2(s, p) else Vec2(p, s), sec % SLOPE_UNIT == 0)
  }

  /** Sample dx of an orthogonal ray: dx cells along the primary axis and slope * dx across it. */
  function OrthogonalSample(width: u8, height: u8, start: Vec2, barrel: u8, ray: nat, dx: nat): Sample
    requires ray < ORTHOGONAL_RAYS
  {
    var vertical := barrel == 0 || barrel == 4;
    var sign := if barrel == 0 || barrel == 6 then -1 else 1;
    var slope := if vertical then -ORTHOGONAL_SLOPES[ray] else ORTHOGONAL_SLOPES[ray];
    NearestCell(width, height, vertical, (if vertical then start.y else start.x) + sign * dx,
                SLOPE_UNIT * (if vertical then start.x else start.y) + slope * dx)
  }

  /** The nearest cell to a coordinate counted in parts of a cell, halves rounded down.  None when it is
      negative. */
  function Rounded(scaled: int, unit: nat): Option<nat>
    requires unit > 0
  {
    if scaled < 0 then None else Some(scaled / unit + (if 2 * (scaled % unit) > unit then 1 else 0))
  }

  /** One coordinate of sample k of a diagonal ray: start + sign * k * slope / (2 * size). */
  function DiagonalCoordinate(start: u8, sign: int, slope: nat, size: nat, k: nat): Option<nat>
    requires size > 0
  {
    Rounded(start * (2 * size) + sign * k * slope * SIZE_UNIT, 2 * size)
  }

  function DiagonalSample(width: u8, height: u8, start: Vec2, barrel: u8, ray: nat, k: nat): Sample
    requires ray < DIAGONAL_RAYS
  {
    var xSign := if barrel % 8 == 5 || barrel % 8 == 7 then -1 else 1;
    var ySign := if barrel % 8 == 1 || barrel % 8 == 7 then -1 else 1;
    var size := DIAGONAL_SIZES[ray];
    match (DiagonalCoordinate(start.x, xSign, DIAGONAL_SLOPES[ray].0, size, k),
           DiagonalCoordinate(start.y, ySign, DIAGONAL_SLOPES[ray].1, size, k))
    case (Some(x), Some(y)) => if x < width && y < height then Near(Vec2(x, y), true) else Miss
    case _ => Miss
  }

  type Ray = nat -> Sample

  function RayOf(width: u8, height: u8, start: Vec2, barrel: u8, ray: nat): Ray
    requires ray < RayCount(barrel)
  {
    if barrel % 2 == 0 then (k: nat) => OrthogonalSample(width, height, start, barrel, ray, k)
    else (k: nat) => DiagonalSample(width, height, start, barrel, ray, k)
  }

  /** tile_beside_grass: the two cells touch on the 8-neighbour grid. */
  predicate Beside(p: Vec2, q: Vec2) {
    -1 <= p.x - q.x <= 1 && -1 <= p.y - q.y <= 1
  }

  // ---------------------------------------------------------------- acts

  /** What stays fixed of a board: its size and the kind of each cell. */
  datatype Ground = Ground(width: u8, height: u8, kinds: seq<CellType>)
  {
    predicate Sized() {
      |kinds| == width * height
    }

    predicate InBounds(p: Vec2) {
      p.x < width && p.y < height
    }

    function Idx(p: Vec2): (i: nat)
      requires Sized() && InBounds(p)
      ensures i < |kinds|
    {
      OffsetFits(width, height, p.x, p.y);
      p.x + width * p.y
    }
  }

  function GroundOf(b: Board): Ground {
    Ground(b.width, b.height, seq(|b.cells|, c requires 0 <= c < |b.cells| => b.cells[c].kind))
  }

  /** One step in building a view: list a tank of the viewer's, mark the cell it stands on, see a
      cell, or see a cell together with whoever stands on it. */
  datatype Act = ListOwn(id: u8) | StandOn(cell: nat, id: u8) | See(cell: nat) | Reveal(cell: nat)

  predicate Looks(g: Ground, a: Act) {
    (a.See? || a.Reveal?) && a.cell < |g.kinds| && (a.See? ==> g.kinds[a.cell] == Terrain)
  }

  /** What one sample contributes, and whether the ray goes on past it. */
  datatype Glimpse = Glimpse(acts: seq<Act>, goOn: bool)

  /** Terrain is seen and ends the ray, foliage ends it and is revealed only from a touching cell,
      open ground is revealed when hit exactly.  Foliage under the tank itself is revealed twice. */
  function Look(g: Ground, start: Vec2, sample: Sample): (l: Glimpse)
    requires g.Sized()
    ensures |l.acts| <= if sample.Near? && sample.pos == start then 2 else 1
    ensures forall a :: a in l.acts ==> Looks(g, a)
  {
    match sample
    case Miss => Glimpse([], false)
    case Between => Glimpse([], true)
    case Near(q, exact) =>
      if !g.InBounds(q) then Glimpse([], false)
      else
        var c := g.Idx(q);
        match g.kinds[c]
        case Terrain => Glimpse([See(c)], false)
        case Foliage =>
          if q == start then Glimpse([Reveal(c), Reveal(c)], true)
          else if Beside(start, q) then Glimpse([Reveal(c)], false)
          else Glimpse([], false)
        case Flat => Glimpse(if exact then [Reveal(c)] else [], true)
  }

  /** The acts of the samples step..last of a ray. */
  function Walk(g: Ground, start: Vec2, ray: Ray, step: nat, last: nat): (acts: seq<Act>)
    requires g.Sized()
    ensures forall a :: a in acts ==> Looks(g, a)
    decreases last + 1 - step
  {
    if step > last then []
    else
      var l := Look(g, start, ray(step));
      if l.goOn then l.acts + Walk(g, start, ray, step + 1, last) else l.acts
  }

  function RayActs(g: Ground, start: Vec2, barrel: u8, r: nat): seq<Act>
    requires g.Sized() && r < RayCount(barrel)
  {
    Walk(g, start, RayOf(g.width, g.height, start, barrel, r), 1, RayLength(barrel, r))
  }

  function Concat(parts: seq<seq<Act>>): seq<Act> {
    if parts == [] then [] else Concat(parts[..|parts| - 1]) + parts[|parts| - 1]
  }

  predicate InSome(parts: seq<seq<Act>>, a: Act) {
    exists j :: 0 <= j < |parts| && a in parts[j]
  }

  lemma {:induction false} ConcatMember(parts: seq<seq<Act>>, a: Act)
    ensures a in Concat(parts) <==> InSome(parts, a)
  {
    if parts != [] {
      var init := parts[..|parts| - 1];
      ConcatMember(init, a);
      assert forall j :: 0 <= j < |init| ==> init[j] == parts[j];
    }
  }

  function TankRays(g: Ground, t: Tank): seq<seq<Act>>
    requires g.Sized()
  {
    seq(RayCount(t.barrel), r requires 0 <= r < RayCount(t.barrel) => RayActs(g, t.pos, t.barrel, r))
  }

  /** The acts of one of the viewer's tanks: a dead one is only listed. */
  function TankActs(g: Ground, id: u8, t: Tank): seq<Act>
    requires g.Sized()
  {
    [ListOwn(id)] +
    (if t.health == 0 || !g.InBounds(t.pos) then []
     else [StandOn(g.Idx(t.pos), id)] + (if t.aimFocused then [] else Concat(TankRays(g, t))))
  }

  lemma TankActsKinds(g: Ground, id: u8, t: Tank, a: Act)
    requires g.Sized() && a in TankActs(g, id, t)
    ensures || a == ListOwn(id)
            || (t.health > 0 && g.InBounds(t.pos) && a == StandOn(g.Idx(t.pos), id))
            || Looks(g, a)
  {
    ConcatMember(TankRays(g, t), a);
  }

  function SlotActs(g: Ground, tanks: seq<Tank>, id: u8): seq<Act>
    requires g.Sized() && (id != NOTHING ==> id < |tanks|)
  {
    if id == NOTHING then [] else TankActs(g, id, tanks[id])
  }

  /** The acts of a player's tank list, one part per entry. */
  function PlayerActs(b: Board, player: nat): (parts: seq<seq<Act>>)
    requires b.Slotted() && player < |b.players|
    ensures |parts| == b.numTanks
  {
    assert b.GoodPlayer(player);
    var ids := b.players[player].tankIds;
    seq(b.numTanks, k requires 0 <= k < b.numTanks => SlotActs(GroundOf(b), b.tanks, ids[k]))
  }

  function Acts(b: Board, player: nat): seq<Act>
    requires b.Slotted() && player < |b.players|
  {
    Concat(PlayerActs(b, player))
  }

  /** Each act of a view comes from one of the player's own tanks. */
  lemma ActsComeFromTanks(b: Board, player: nat, a: Act) returns (k: nat)
    requires b.Slotted() && player < |b.players| && a in Acts(b, player)
    ensures GroundOf(b).Sized() && b.GoodPlayer(player) && k < b.numTanks
    ensures var id := b.players[player].tankIds[k];
            id != NOTHING && a in TankActs(GroundOf(b), id, b.tanks[id])
  {
    ConcatMember(PlayerActs(b, player), a);
    k :| 0 <= k < b.numTanks && a in PlayerActs(b, player)[k];
    assert b.GoodPlayer(player);
  }

  // ---------------------------------------------------------------- views

  datatype View = View(cells: seq<Cell>, listed: seq<Tank>)

  predicate Valid(b: Board, a: Act) {
    match a
    case ListOwn(id) => id < |b.tanks|
    case StandOn(cell, id) => cell < |b.cells| && id < |b.tanks|
    case See(cell) => cell < |b.cells|
    case Reveal(cell) => cell < |b.cells| && (b.cells[cell].occupant == NOTHING || b.cells[cell].occupant < |b.tanks|)
  }

  function Blank(b: Board): View {
    View(seq(|b.cells|, c requires 0 <= c < |b.cells| => Cell(b.cells[c].kind, NOTHING, false)), [])
  }

  /** One act.  An act outside the board would do nothing; a view has none (ActsAreValid). */
  function Do(b: Board, v: View, a: Act): (v': View)
    requires |v.cells| == |b.cells|
    ensures |v'.cells| == |b.cells|
  {
    if !Valid(b, a) then v
    else match a
         case ListOwn(id) => v.(listed := v.listed + [b.tanks[id]])
         case StandOn(cell, id) => v.(cells := v.cells[cell := v.cells[cell].(occupant := id, visible := true)])
         case See(cell) => v.(cells := v.cells[cell := v.cells[cell].(visible := true)])
         case Reveal(cell) =>
           var occ := b.cells[cell].occupant;
           View(v.cells[cell := v.cells[cell].(occupant := occ, visible := true)],
                if occ == NOTHING then v.listed else v.listed + [b.tanks[occ]])
  }

  function DoAll(b: Board, v: View, acts: seq<Act>): (v': View)
    requires |v.cells| == |b.cells|
    ensures |v'.cells| == |b.cells|
    decreases |acts|
  {
    if acts == [] then v else Do(b, DoAll(b, v, acts[..|acts| - 1]), acts[|acts| - 1])
  }

  lemma {:induction false} DoAllJoin(b: Board, v: View, acts: seq<Act>, more: seq<Act>)
    requires |v.cells| == |b.cells|
    ensures DoAll(b, v, acts + more) == DoAll(b, DoAll(b, v, acts), more)
    decreases |more|
  {
    if more == [] {
      assert acts + more == acts;
    } else {
      var init := more[..|more| - 1];
      assert (acts + more)[..|acts + more| - 1] == acts + init;
      DoAllJoin(b, v, acts, init);
    }
  }

  lemma DoOne(b: Board, v: View, a: Act)
    requires |v.cells| == |b.cells|
    ensures DoAll(b, v, [a]) == Do(b, v, a)
  {
    assert [a][..0] == [];
  }

  lemma DoTwo(b: Board, v: View, a: Act, a': Act)
    requires |v.cells| == |b.cells|
    ensures DoAll(b, v, [a, a']) == Do(b, Do(b, v, a), a')
  {
    DoOne(b, v, a);
    assert [a, a'][..1] == [a];
  }

  /** The effect of one sample on a view, case by case. */
  lemma LookEffect(b: Board, v: View, start: Vec2, sample: Sample)
    requires b.Sized() && b.KnownOccupants() && |v.cells| == |b.cells|
    ensures GroundOf(b).Sized()
    ensures var l := Look(GroundOf(b), start, sample);
            var after := DoAll(b, v, l.acts);
            if !sample.Near? || !b.InBounds(sample.pos) then after == v && (l.goOn <==> sample.Between?)
            else
              var c := b.Idx(sample.pos);
              match b.cells[c].kind
              case Terrain => after == Do(b, v, See(c)) && !l.goOn
              case Foliage =>
                if sample.pos == start then after == Do(b, Do(b, v, Reveal(c)), Reveal(c)) && l.goOn
                else after == (if Beside(start, sample.pos) then Do(b, v, Reveal(c)) else v) && !l.goOn
              case Flat => after == (if sample.exact then Do(b, v, Reveal(c)) else v) && l.goOn
  {
    if sample.Near? && b.InBounds(sample.pos) {
      var c := b.Idx(sample.pos);
      assert GroundOf(b).kinds[c] == b.cells[c].kind && GroundOf(b).Idx(sample.pos) == c;
      DoOne(b, v, See(c));
      DoOne(b, v, Reveal(c));
      DoTwo(b, v, Reveal(c), Reveal(c));
    }
  }

  /** A tank of the viewer's, listed and, if alive, marked on its cell. */
  function OwnShown(b: Board, v: View, id: u8): (v': View)
    requires b.Sized() && |v.cells| == |b.cells| && id < |b.tanks|
    ensures |v'.cells| == |b.cells|
  {
    var t := b.tanks[id];
    var listed := v.(listed := v.listed + [t]);
    if t.health == 0 || !b.InBounds(t.pos) then listed
    else
      var c := b.Idx(t.pos);
      listed.(cells := listed.cells[c := listed.cells[c].(occupant := id, visible := true)])
  }

  function OwnActs(g: Ground, id: u8, t: Tank): seq<Act>
    requires g.Sized()
  {
    if t.health == 0 || !g.InBounds(t.pos) then [ListOwn(id)] else [ListOwn(id), StandOn(g.Idx(t.pos), id)]
  }

  lemma TankActsParts(g: Ground, id: u8, t: Tank)
    requires g.Sized()
    ensures TankActs(g, id, t) ==
            OwnActs(g, id, t) +
            (if t.health == 0 || !g.InBounds(t.pos) || t.aimFocused then [] else Concat(TankRays(g, t)))
  {
  }

  lemma OwnEffect(b: Board, v: View, id: u8)
    requires b.Sized() && |v.cells| == |b.cells| && id < |b.tanks|
    ensures GroundOf(b).Sized() && DoAll(b, v, OwnActs(GroundOf(b), id, b.tanks[id])) == OwnShown(b, v, id)
  {
    var t := b.tanks[id];
    DoOne(b, v, ListOwn(id));
    if t.health > 0 && b.InBounds(t.pos) {
      DoTwo(b, v, ListOwn(id), StandOn(b.Idx(t.pos), id));
    }
  }

  /** The effect of one of the viewer's tanks: it is shown, then its rays if it is alive. */
  lemma TankEffect(b: Board, v: View, id: u8)
    requires b.Sized() && |v.cells| == |b.cells| && id < |b.tanks|
    ensures GroundOf(b).Sized()
    ensures var t := b.tanks[id];
            DoAll(b, v, TankActs(GroundOf(b), id, t)) ==
            if t.health == 0 || !b.InBounds(t.pos) || t.aimFocused then OwnShown(b, v, id)
            else DoAll(b, OwnShown(b, v, id), Concat(TankRays(GroundOf(b), t)))
  {
    var g, t := GroundOf(b), b.tanks[id];
    TankActsParts(g, id, t);
    OwnEffect(b, v, id);
    DoAllJoin(b, v, OwnActs(g, id, t),
              if t.health == 0 || !g.InBounds(t.pos) || t.aimFocused then [] else Concat(TankRays(g, t)));
  }

  lemma ConcatNext(parts: seq<seq<Act>>, k: nat)
    requires k < |parts|
    ensures Concat(parts[..k + 1]) == Concat(parts[..k]) + parts[k]
  {
    assert parts[..k + 1][..k] == parts[..k];
  }

  /** The view after the first k entries of the player's tank list. */
  function ViewUpTo(b: Board, player: nat, k: nat): (v: View)
    requires b.Slotted() && player < |b.players| && k <= b.numTanks
    ensures |v.cells| == |b.cells|
  {
    DoAll(b, Blank(b), Concat(PlayerActs(b, player)[..k]))
  }

  lemma ViewStep(b: Board, player: nat, k: nat)
    requires b.Slotted() && player < |b.players| && k < b.numTanks
    ensures GroundOf(b).Sized() && b.GoodPlayer(player)
    ensures var id := b.players[player].tankIds[k];
            && (id == NOTHING ==> ViewUpTo(b, player, k + 1) == ViewUpTo(b, player, k))
            && (id != NOTHING ==>
                 && id < |b.tanks| && b.InBounds(b.tanks[id].pos)
                 && ViewUpTo(b, player, k + 1) ==
                    DoAll(b, ViewUpTo(b, player, k), TankActs(GroundOf(b), id, b.tanks[id])))
  {
    assert b.GoodPlayer(player);
    var parts, id := PlayerActs(b, player), b.players[player].tankIds[k];
    ConcatNext(parts, k);
    DoAllJoin(b, Blank(b), Concat(parts[..k]), parts[k]);
    if id != NOTHING {
      assert id == Slot(b.numTanks, player, k) && b.GoodTank(id);
    }
  }

  predicate AllValid(b: Board, acts: seq<Act>) {
    forall a :: a in acts ==> Valid(b, a)
  }

  lemma ActsAreValid(b: Board, player: nat)
    requires b.Named() && b.Slotted() && player < |b.players|
    ensures AllValid(b, Acts(b, player))
  {
    forall a | a in Acts(b, player)
      ensures Valid(b, a)
    {
      var k := ActsComeFromTanks(b, player, a);
      var id := b.players[player].tankIds[k];
      TankActsKinds(GroundOf(b), id, b.tanks[id], a);
    }
  }

  /** compute_view. */
  function ComputeView(b: Board, player: nat): (v: View)
    requires b.Named() && b.Slotted() && player < |b.players|
    ensures |v.cells| == |b.cells|
  {
    DoAll(b, Blank(b), Acts(b, player))
  }

  // ---------------------------------------------------------------- the visibility mask

  predicate Marks(a: Act, c: nat) {
    !a.ListOwn? && a.cell == c
  }

  predicate Marked(acts: seq<Act>, c: nat) {
    exists a :: a in acts && Marks(a, c)
  }

  lemma {:induction false} ShowVisible(b: Board, acts: seq<Act>, c: nat)
    requires AllValid(b, acts) && c < |b.cells|
    ensures DoAll(b, Blank(b), acts).cells[c].visible <==> Marked(acts, c)
    ensures DoAll(b, Blank(b), acts).cells[c].kind == b.cells[c].kind
    decreases |acts|
  {
    if acts != [] {
      var init, last := acts[..|acts| - 1], acts[|acts| - 1];
      ShowVisible(b, init, c);
      assert acts == init + [last];
      MarkedJoin(init, [last], c);
      assert last in [last];
    }
  }

  /** A live tank sees a cell: it stands there or one of its rays marks it. */
  predicate Sees(g: Ground, t: Tank, c: nat)
    requires g.Sized()
  {
    && t.health > 0 && g.InBounds(t.pos)
    && (c == g.Idx(t.pos) || (!t.aimFocused && Marked(Concat(TankRays(g, t)), c)))
  }

  lemma MarkedJoin(acts: seq<Act>, more: seq<Act>, c: nat)
    ensures Marked(acts + more, c) <==> Marked(acts, c) || Marked(more, c)
  {
    assert forall a :: a in acts || a in more ==> a in acts + more;
  }

  lemma TankActsMark(g: Ground, id: u8, t: Tank, c: nat)
    requires g.Sized()
    ensures Marked(TankActs(g, id, t), c) <==> Sees(g, t, c)
  {
    if t.health > 0 && g.InBounds(t.pos) {
      var own := StandOn(g.Idx(t.pos), id);
      var rays := if t.aimFocused then [] else Concat(TankRays(g, t));
      assert TankActs(g, id, t) == [ListOwn(id), own] + rays;
      MarkedJoin([ListOwn(id), own], rays, c);
      assert own in [ListOwn(id), own];
    }
  }

  /** The visibility mask is exactly what the player's own live tanks see, and each live tank's
      sight is a function of the ground alone: nothing of an opponent enters it. */
  lemma MaskMeaning(b: Board, player: nat, c: nat)
    requires b.Named() && b.Slotted() && player < |b.players| && c < |b.cells|
    ensures ComputeView(b, player).cells[c].kind == b.cells[c].kind
    ensures b.GoodPlayer(player) && GroundOf(b).Sized()
    ensures ComputeView(b, player).cells[c].visible <==>
            exists k :: 0 <= k < b.numTanks && b.players[player].tankIds[k] != NOTHING
                        && Sees(GroundOf(b), b.tanks[b.players[player].tankIds[k]], c)
  {
    ActsAreValid(b, player);
    assert b.GoodPlayer(player);
    var g, ids := GroundOf(b), b.players[player].tankIds;
    ShowVisible(b, Acts(b, player), c);
    if a :| a in Acts(b, player) && Marks(a, c) {
      var k := ActsComeFromTanks(b, player, a);
      TankActsMark(g, ids[k], b.tanks[ids[k]], c);
    }
    if k :| 0 <= k < b.numTanks && ids[k] != NOTHING && Sees(g, b.tanks[ids[k]], c) {
      TankActsMark(g, ids[k], b.tanks[ids[k]], c);
      var a :| a in TankActs(g, ids[k], b.tanks[ids[k]]) && Marks(a, c);
      assert a in PlayerActs(b, player)[k];
      ConcatMember(PlayerActs(b, player), a);
    }
  }

  // ---------------------------------------------------------------- non-interference

  /** Two boards with the same ground and the same tanks of one player. */
  predicate SameOwn(b: Board, b': Board, player: nat) {
    && b.Slotted() && b'.Slotted() && player < |b.players| && player < |b'.players|
    && GroundOf(b) == GroundOf(b') && b.numTanks == b'.numTanks
    && b.players[player] == b'.players[player]
    && forall k {:trigger b.players[player].tankIds[k]} ::
         0 <= k < |b.players[player].tankIds| && b.players[player].tankIds[k] != NOTHING ==>
           b.players[player].tankIds[k] < |b.tanks| && b.players[player].tankIds[k] < |b'.tanks|
           && b.tanks[b.players[player].tankIds[k]] == b'.tanks[b.players[player].tankIds[k]]
  }

  /** Two boards agree on a cell: the same occupant, with the same record. */
  predicate AgreeAt(b: Board, b': Board, c: nat)
    requires c < |b.cells| && c < |b'.cells|
  {
    var occ := b.cells[c].occupant;
    && b'.cells[c].occupant == occ
    && (occ != NOTHING ==> occ < |b.tanks| && occ < |b'.tanks| && b.tanks[occ] == b'.tanks[occ])
  }

  lemma ActsSame(b: Board, b': Board, player: nat)
    requires SameOwn(b, b', player)
    ensures Acts(b, player) == Acts(b', player)
    ensures forall a :: a in Acts(b, player) && a.ListOwn? ==>
              a.id < |b.tanks| && a.id < |b'.tanks| && b.tanks[a.id] == b'.tanks[a.id]
  {
    assert b.GoodPlayer(player) && b'.GoodPlayer(player);
    assert PlayerActs(b, player) == PlayerActs(b', player);
    forall a | a in Acts(b, player) && a.ListOwn?
      ensures a.id in b.players[player].tankIds && a.id != NOTHING
    {
      var k := ActsComeFromTanks(b, player, a);
      var id := b.players[player].tankIds[k];
      TankActsKinds(GroundOf(b), id, b.tanks[id], a);
    }
  }

  lemma {:induction false} ShowSame(b: Board, b': Board, acts: seq<Act>)
    requires AllValid(b, acts) && AllValid(b', acts) && GroundOf(b) == GroundOf(b')
    requires forall a :: a in acts && a.ListOwn? ==> b.tanks[a.id] == b'.tanks[a.id]
    requires |b.cells| == |b'.cells| && forall a :: a in acts && a.Reveal? ==> AgreeAt(b, b', a.cell)
    ensures DoAll(b, Blank(b), acts) == DoAll(b', Blank(b'), acts)
    decreases |acts|
  {
    assert forall c :: 0 <= c < |b.cells| ==> GroundOf(b).kinds[c] == b.cells[c].kind;
    assert forall c :: 0 <= c < |b'.cells| ==> GroundOf(b').kinds[c] == b'.cells[c].kind;
    if acts == [] {
      assert Blank(b).cells == Blank(b').cells;
    } else {
      var init, last := acts[..|acts| - 1], acts[|acts| - 1];
      assert acts == init + [last];
      assert last in acts && forall a :: a in init ==> a in acts;
      ShowSame(b, b', init);
    }
  }

  lemma SameMask(b: Board, b': Board, player: nat)
    requires b.Named() && b'.Named() && SameOwn(b, b', player)
    ensures |ComputeView(b, player).cells| == |ComputeView(b', player).cells| == |b.cells| == |b'.cells|
    ensures forall c :: 0 <= c < |b.cells| ==>
              ComputeView(b, player).cells[c].visible == ComputeView(b', player).cells[c].visible
  {
    ActsSame(b, b', player);
    ActsAreValid(b, player);
    ActsAreValid(b', player);
    assert |GroundOf(b).kinds| == |b.cells| && |GroundOf(b').kinds| == |b'.cells|;
    forall c | 0 <= c < |b.cells|
      ensures ComputeView(b, player).cells[c].visible == ComputeView(b', player).cells[c].visible
    {
      ShowVisible(b, Acts(b, player), c);
      ShowVisible(b', Acts(b', player), c);
    }
  }

  /** Fog of war: a view is a function of the ground, the viewer's own tanks, and the occupants of
      the cells it shows as visible.  Boards that agree on those give the same view, whatever else
      they hide. */
  lemma NonInterference(b: Board, b': Board, player: nat)
    requires b.Named() && b'.Named() && SameOwn(b, b', player)
    requires |b.cells| == |b'.cells|
    requires forall c :: 0 <= c < |b.cells| && ComputeView(b, player).cells[c].visible ==> AgreeAt(b, b', c)
    ensures ComputeView(b, player) == ComputeView(b', player)
  {
    ActsSame(b, b', player);
    ActsAreValid(b, player);
    ActsAreValid(b', player);
    var acts := Acts(b, player);
    forall a | a in acts && a.Reveal?
      ensures AgreeAt(b, b', a.cell)
    {
      assert Valid(b, a) && Marks(a, a.cell);
      ShowVisible(b, acts, a.cell);
    }
    ShowSame(b, b', acts);
  }

  // ---------------------------------------------------------------- soundness

  /** Every shown occupant is the true one and on a visible cell, and every listed tank is a true
      record of the viewer's own or of one standing on a visible cell. */
  ghost predicate Sound(b: Board, v: View, own: set<u8>) {
    && |v.cells| == |b.cells| && b.Sized()
    && (forall c {:trigger v.cells[c]} :: 0 <= c < |v.cells| && v.cells[c].occupant != NOTHING ==>
         v.cells[c].visible && v.cells[c].occupant == b.cells[c].occupant)
    && (forall k {:trigger v.listed[k]} :: 0 <= k < |v.listed| ==> TrueRecord(b, v, own, v.listed[k]))
  }

  ghost predicate TrueRecord(b: Board, v: View, own: set<u8>, t: Tank)
    requires |v.cells| == |b.cells| && b.Sized()
  {
    exists i {:trigger b.tanks[i]} :: 0 <= i < |b.tanks| && t == b.tanks[i] &&
      (i in own || (b.InBounds(t.pos) && b.At(t.pos).occupant == i && v.cells[b.Idx(t.pos)].visible))
  }

  predicate Honest(b: Board, own: set<u8>, a: Act) {
    && (a.ListOwn? ==> a.id in own)
    && (a.StandOn? ==> a.cell < |b.cells| && b.cells[a.cell].occupant == a.id)
  }

  lemma DoIsSound(b: Board, v: View, own: set<u8>, a: Act)
    requires b.Named() && Valid(b, a) && Honest(b, own, a) && Sound(b, v, own)
    ensures Sound(b, Do(b, v, a), own)
  {
    var v' := Do(b, v, a);
    forall k | 0 <= k < |v'.listed|
      ensures TrueRecord(b, v', own, v'.listed[k])
    {
      if k < |v.listed| {
        assert TrueRecord(b, v, own, v.listed[k]);
      } else if a.ListOwn? {
        assert v'.listed[k] == b.tanks[a.id];
      } else {
        assert v'.listed[k] == b.tanks[b.cells[a.cell].occupant];
      }
    }
  }

  lemma {:induction false} ShowIsSound(b: Board, acts: seq<Act>, own: set<u8>)
    requires b.Named() && AllValid(b, acts) && forall a :: a in acts ==> Honest(b, own, a)
    ensures Sound(b, DoAll(b, Blank(b), acts), own)
    decreases |acts|
  {
    if acts != [] {
      var init, last := acts[..|acts| - 1], acts[|acts| - 1];
      assert acts == init + [last];
      ShowIsSound(b, init, own);
      DoIsSound(b, DoAll(b, Blank(b), init), own, last);
    }
  }

  function OwnIds(b: Board, player: nat): set<u8>
    requires player < |b.players|
  {
    set id | id in b.players[player].tankIds && id != NOTHING
  }

  lemma TankActIsHonest(b: Board, own: set<u8>, id: u8, a: Act)
    requires b.Sized() && b.Anchored() && id < |b.tanks| && id in own
    requires GroundOf(b).Sized() && a in TankActs(GroundOf(b), id, b.tanks[id])
    ensures Honest(b, own, a)
  {
    TankActsKinds(GroundOf(b), id, b.tanks[id], a);
  }

  lemma ActIsHonest(b: Board, player: nat, a: Act)
    requires b.Slotted() && b.Anchored() && player < |b.players| && a in Acts(b, player)
    ensures Honest(b, OwnIds(b, player), a)
  {
    var k := ActsComeFromTanks(b, player, a);
    assert b.players[player].tankIds[k] in OwnIds(b, player);
    TankActIsHonest(b, OwnIds(b, player), b.players[player].tankIds[k], a);
  }

  lemma ViewIsSound(b: Board, player: nat)
    requires b.Consistent() && b.Slotted() && player < |b.players|
    ensures Sound(b, ComputeView(b, player), OwnIds(b, player))
  {
    ActsAreValid(b, player);
    forall a | a in Acts(b, player)
      ensures Honest(b, OwnIds(b, player), a)
    {
      ActIsHonest(b, player, a);
    }
    ShowIsSound(b, Acts(b, player), OwnIds(b, player));
  }

  // ---------------------------------------------------------------- completeness

  predicate ShowsOccupant(a: Act, c: nat) {
    (a.StandOn? || a.Reveal?) && a.cell == c
  }

  lemma {:induction false} ShownOccupant(b: Board, acts: seq<Act>, own: set<u8>, c: nat)
    requires AllValid(b, acts) && c < |b.cells| && forall a :: a in acts ==> Honest(b, own, a)
    requires exists a :: a in acts && ShowsOccupant(a, c)
    ensures DoAll(b, Blank(b), acts).cells[c].occupant == b.cells[c].occupant
    decreases |acts|
  {
    var init, last := acts[..|acts| - 1], acts[|acts| - 1];
    var before := DoAll(b, Blank(b), init);
    assert acts == init + [last] && last in acts;
    assert Valid(b, last) && Honest(b, own, last);
    assert DoAll(b, Blank(b), acts) == Do(b, before, last);
    if ShowsOccupant(last, c) {
      assert Do(b, before, last).cells[c].occupant == b.cells[c].occupant;
    } else {
      var a :| a in acts && ShowsOccupant(a, c);
      assert a in init;
      ShownOccupant(b, init, own, c);
      assert Do(b, before, last).cells[c].occupant == before.cells[c].occupant;
    }
  }

  lemma {:induction false} ShownListed(b: Board, acts: seq<Act>, a: Act)
    requires AllValid(b, acts) && a in acts
    ensures a.ListOwn? ==> b.tanks[a.id] in DoAll(b, Blank(b), acts).listed
    ensures a.Reveal? && b.cells[a.cell].occupant != NOTHING ==>
              b.tanks[b.cells[a.cell].occupant] in DoAll(b, Blank(b), acts).listed
    decreases |acts|
  {
    var init, last := acts[..|acts| - 1], acts[|acts| - 1];
    assert acts == init + [last];
    if a != last {
      ShownListed(b, init, a);
    }
  }

  /** Where a tank is marked as standing, it is listed too. */
  lemma StandingIsListed(b: Board, player: nat, a: Act)
    requires b.Slotted() && player < |b.players| && a in Acts(b, player) && a.StandOn?
    ensures ListOwn(a.id) in Acts(b, player)
  {
    var k := ActsComeFromTanks(b, player, a);
    var id := b.players[player].tankIds[k];
    TankActsKinds(GroundOf(b), id, b.tanks[id], a);
    assert ListOwn(id) in PlayerActs(b, player)[k];
    ConcatMember(PlayerActs(b, player), ListOwn(id));
  }

  lemma SeenIsTerrain(b: Board, player: nat, a: Act)
    requires b.Slotted() && player < |b.players| && a in Acts(b, player) && a.See?
    ensures a.cell < |b.cells| && b.cells[a.cell].kind == Terrain
  {
    var k := ActsComeFromTanks(b, player, a);
    var id := b.players[player].tankIds[k];
    TankActsKinds(GroundOf(b), id, b.tanks[id], a);
  }

  lemma NobodyOnTerrain(b: Board, c: nat)
    requires b.Consistent() && c < |b.cells| && b.cells[c].kind == Terrain
    ensures b.cells[c].occupant == NOTHING
  {
  }

  /** On a consistent board a view shows, in each cell, the true occupant if the cell is visible and
      nobody otherwise; and every occupant of a visible cell is listed. */
  lemma ViewIsExact(b: Board, player: nat, c: nat)
    requires b.Consistent() && b.Slotted() && player < |b.players| && c < |b.cells|
    ensures var v := ComputeView(b, player);
            && v.cells[c].occupant == (if v.cells[c].visible then b.cells[c].occupant else NOTHING)
            && (v.cells[c].visible && b.cells[c].occupant != NOTHING ==> b.tanks[b.cells[c].occupant] in v.listed)
  {
    var acts, v := Acts(b, player), ComputeView(b, player);
    ActsAreValid(b, player);
    ViewIsSound(b, player);
    ShowVisible(b, acts, c);
    if v.cells[c].visible {
      var a :| a in acts && Marks(a, c);
      if a.See? {
        SeenIsTerrain(b, player, a);
        NobodyOnTerrain(b, c);
      } else {
        VisibleIsShown(b, player, a);
      }
    }
  }

  lemma OwnIsListed(b: Board, player: nat, id: u8)
    requires b.Consistent() && b.Slotted() && player < |b.players| && id in OwnIds(b, player)
    ensures id < |b.tanks| && b.tanks[id] in ComputeView(b, player).listed
  {
    assert b.GoodPlayer(player);
    var k :| 0 <= k < b.numTanks && b.players[player].tankIds[k] == id;
    assert id == Slot(b.numTanks, player, k);
    ActsAreValid(b, player);
    assert ListOwn(id) in PlayerActs(b, player)[k];
    ConcatMember(PlayerActs(b, player), ListOwn(id));
    ShownListed(b, Acts(b, player), ListOwn(id));
  }

  lemma ListedIsTrue(b: Board, player: nat, i: nat)
    requires b.Consistent() && b.Slotted() && player < |b.players| && i < |b.tanks|
    requires b.tanks[i] in ComputeView(b, player).listed
    ensures i in OwnIds(b, player) ||
            (b.tanks[i].health > 0 && b.InBounds(b.tanks[i].pos)
             && ComputeView(b, player).cells[b.Idx(b.tanks[i].pos)].visible)
  {
    var v := ComputeView(b, player);
    ViewIsSound(b, player);
    var k :| 0 <= k < |v.listed| && v.listed[k] == b.tanks[i];
    assert TrueRecord(b, v, OwnIds(b, player), v.listed[k]);
    var j :| 0 <= j < |b.tanks| && b.tanks[i] == b.tanks[j] &&
      (j in OwnIds(b, player) || (b.InBounds(b.tanks[i].pos) && b.At(b.tanks[i].pos).occupant == j
                                  && v.cells[b.Idx(b.tanks[i].pos)].visible));
    assert b.GoodTank(i) && b.GoodTank(j);
  }

  /** On a consistent board a view lists exactly the player's own placed tanks, dead or alive, and the live
      tanks on visible cells. */
  lemma ListedIff(b: Board, player: nat, i: nat)
    requires b.Consistent() && b.Slotted() && player < |b.players| && i < |b.tanks|
    ensures b.tanks[i] in ComputeView(b, player).listed <==>
            i in OwnIds(b, player) ||
            (b.tanks[i].health > 0 && b.InBounds(b.tanks[i].pos)
             && ComputeView(b, player).cells[b.Idx(b.tanks[i].pos)].visible)
  {
    if i in OwnIds(b, player) {
      OwnIsListed(b, player, i);
    } else if b.tanks[i].health > 0 && b.InBounds(b.tanks[i].pos) {
      ViewIsExact(b, player, b.Idx(b.tanks[i].pos));
    }
    if b.tanks[i] in ComputeView(b, player).listed {
      ListedIsTrue(b, player, i);
    }
  }

  lemma VisibleIsShown(b: Board, player: nat, a: Act)
    requires b.Consistent() && b.Slotted() && player < |b.players| && a in Acts(b, player) && Valid(b, a)
    requires a.StandOn? || a.Reveal?
    ensures var v := ComputeView(b, player);
            && v.cells[a.cell].occupant == b.cells[a.cell].occupant
            && (b.cells[a.cell].occupant != NOTHING ==> b.tanks[b.cells[a.cell].occupant] in v.listed)
  {
    var acts, own := Acts(b, player), OwnIds(b, player);
    ActsAreValid(b, player);
    forall x | x in acts
      ensures Honest(b, own, x)
    {
      ActIsHonest(b, player, x);
    }
    assert ShowsOccupant(a, a.cell);
    ShownOccupant(b, acts, own, a.cell);
    if a.StandOn? {
      StandingIsListed(b, player, a);
      ShownListed(b, acts, ListOwn(a.id));
    } else {
      ShownListed(b, acts, a);
    }
  }

  /** A ray reveals nothing past its first terrain cell: the samples beyond it might as well not be
      there. */
  lemma {:induction false} TerrainEndsRay(g: Ground, start: Vec2, ray: Ray, step: nat, last: nat, at: nat)
    requires g.Sized() && step <= at <= last
    requires ray(at).Near? && g.InBounds(ray(at).pos) && g.kinds[g.Idx(ray(at).pos)] == Terrain
    ensures Walk(g, start, ray, step, last) == Walk(g, start, ray, step, at)
    decreases at - step
  {
    if step < at {
      TerrainEndsRay(g, start, ray, step + 1, last, at);
    }
  }

  // ---------------------------------------------------------------- size of a view

  /** From its second sample on, a diagonal ray has left its starting cell. */
  lemma DiagonalLeaves(width: u8, height: u8, start: Vec2, barrel: u8, ray: nat, k: nat)
    requires ray < DIAGONAL_RAYS && k >= 2
    ensures DiagonalSample(width, height, start, barrel, ray, k) != Near(start, true)
  {
  }

  lemma RayLeaves(width: u8, height: u8, start: Vec2, barrel: u8, r: nat, k: nat)
    requires r < RayCount(barrel) && k >= 2
    ensures var sample := RayOf(width, height, start, barrel, r)(k);
            sample.Near? ==> sample.pos != start
  {
    if barrel % 2 == 1 {
      DiagonalLeaves(width, height, start, barrel, r, k);
    }
  }

  lemma {:induction false} WalkIsShort(g: Ground, start: Vec2, ray: Ray, step: nat, last: nat)
    requires g.Sized() && step <= last + 1
    requires forall k: nat :: k >= 2 && ray(k).Near? ==> ray(k).pos != start
    ensures |Walk(g, start, ray, step, last)| <= last + 1 - step + (if step <= 1 then 2 - step else 0)
    decreases last + 1 - step
  {
    if step <= last {
      WalkIsShort(g, start, ray, step + 1, last);
    }
  }

  const CONE_BOUND := 59

  /** The samples of the first n rays of a barrel, counting one extra per ray. */
  function ConeSize(barrel: u8, n: nat): nat
    requires n <= RayCount(barrel)
  {
    if n == 0 then 0 else ConeSize(barrel, n - 1) + RayLength(barrel, n - 1) + 1
  }

  lemma ConeSizes(barrel: u8)
    ensures ConeSize(barrel, RayCount(barrel)) <= CONE_BOUND
  {
    if barrel % 2 == 0 {
      assert ConeSize(barrel, 1) == 3;
      assert ConeSize(barrel, 2) == 6;
      assert ConeSize(barrel, 3) == 10;
      assert ConeSize(barrel, 4) == 15;
      assert ConeSize(barrel, 5) == 19;
      assert ConeSize(barrel, 6) == 22;
    } else {
      assert ConeSize(barrel, 1) == 5;
      assert ConeSize(barrel, 2) == 12;
      assert ConeSize(barrel, 3) == 17;
      assert ConeSize(barrel, 4) == 25;
      assert ConeSize(barrel, 5) == 34;
      assert ConeSize(barrel, 6) == 42;
      assert ConeSize(barrel, 7) == 47;
      assert ConeSize(barrel, 8) == 54;
    }
  }

  lemma RayIsShort(g: Ground, start: Vec2, barrel: u8, r: nat)
    requires g.Sized() && r < RayCount(barrel)
    ensures |RayActs(g, start, barrel, r)| <= RayLength(barrel, r) + 1
  {
    var ray := RayOf(g.width, g.height, start, barrel, r);
    forall k: nat | k >= 2 && ray(k).Near?
      ensures ray(k).pos != start
    {
      RayLeaves(g.width, g.height, start, barrel, r, k);
    }
    WalkIsShort(g, start, ray, 1, RayLength(barrel, r));
  }

  lemma {:induction false} RaysAreShort(g: Ground, t: Tank, n: nat)
    requires g.Sized() && n <= RayCount(t.barrel)
    ensures |Concat(TankRays(g, t)[..n])| <= ConeSize(t.barrel, n)
  {
    if n > 0 {
      RaysAreShort(g, t, n - 1);
      RayIsShort(g, t.pos, t.barrel, n - 1);
      assert TankRays(g, t)[..n][..n - 1] == TankRays(g, t)[..n - 1];
    }
  }

  const ACTS_PER_TANK := 61

  lemma TankActsAreFew(g: Ground, id: u8, t: Tank)
    requires g.Sized()
    ensures |TankActs(g, id, t)| <= ACTS_PER_TANK
  {
    RaysAreShort(g, t, RayCount(t.barrel));
    assert TankRays(g, t)[..RayCount(t.barrel)] == TankRays(g, t);
    ConeSizes(t.barrel);
  }

  lemma {:induction false} ConcatIsShort(parts: seq<seq<Act>>, bound: nat)
    requires forall k :: 0 <= k < |parts| ==> |parts[k]| <= bound
    ensures |Concat(parts)| <= bound * |parts|
  {
    if parts != [] {
      ConcatIsShort(parts[..|parts| - 1], bound);
    }
  }

  lemma {:induction false} ShowListsFew(b: Board, acts: seq<Act>)
    requires AllValid(b, acts)
    ensures |DoAll(b, Blank(b), acts).listed| <= |acts|
    decreases |acts|
  {
    if acts != [] {
      assert acts == acts[..|acts| - 1] + [acts[|acts| - 1]];
      ShowListsFew(b, acts[..|acts| - 1]);
    }
  }

  /** A view lists the same tank once per sample that hits it, yet for a player with up to four
      tanks the list always fits the one-byte count of the wire format. */
  lemma ViewFitsByte(b: Board, player: nat)
    requires b.Named() && b.Slotted() && player < |b.players|
    ensures |ComputeView(b, player).listed| <= ACTS_PER_TANK * b.numTanks
    ensures b.numTanks <= 4 ==> |ComputeView(b, player).listed| <= 255
  {
    assert b.GoodPlayer(player);
    ActsAreValid(b, player);
    forall k | 0 <= k < b.numTanks && b.players[player].tankIds[k] != NOTHING
      ensures |PlayerActs(b, player)[k]| <= ACTS_PER_TANK
    {
      TankActsAreFew(GroundOf(b), b.players[player].tankIds[k], b.tanks[b.players[player].tankIds[k]]);
    }
    ConcatIsShort(PlayerActs(b, player), ACTS_PER_TANK);
    ShowListsFew(b, Acts(b, player));
  }
}
