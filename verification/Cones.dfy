/** Which cells a tank sees, stated without rays: a cone of named cells in front of the barrel, each seen
    exactly when the cells of one of its sight lines are flat.  It holds on any ground and at any edge. */
module Cones {
  import opened Basics
  import opened Boards
  import opened Vision

  // ---------------------------------------------------------------- the cone

  /** n cells in the direction of a sign. */
  function Along(sign: int, n: int): int {
    if sign > 0 then n else if sign < 0 then -n else 0
  }

  /** A straight barrel looks f cells forward and s across; a diagonal one f columns and s rows on. */
  function SpotX(p: Vec2, d: u8, f: int, s: int): int
    requires d < 8
  {
    if d % 2 == 0 && Dx(d) == 0 then p.x + s else p.x + Along(Dx(d), f)
  }

  function SpotY(p: Vec2, d: u8, f: int, s: int): int
    requires d < 8
  {
    if d % 2 == 1 then p.y + Along(Dy(d), s) else if Dy(d) == 0 then p.y + s else p.y + Along(Dy(d), f)
  }

  function Forward(p: Vec2, d: u8, q: Vec2): int
    requires d < 8
  {
    if d % 2 == 0 && Dx(d) == 0 then Along(Dy(d), q.y - p.y) else Along(Dx(d), q.x - p.x)
  }

  function Across(p: Vec2, d: u8, q: Vec2): int
    requires d < 8
  {
    if d % 2 == 1 then Along(Dy(d), q.y - p.y) else if Dy(d) == 0 then q.y - p.y else q.x - p.x
  }

  predicate OnGround(g: Ground, x: int, y: int) {
    0 <= x < g.width && 0 <= y < g.height
  }

  predicate FlatAt(g: Ground, p: Vec2, d: u8, f: int, s: int)
    requires g.Sized() && d < 8
  {
    var x, y := SpotX(p, d, f, s), SpotY(p, d, f, s);
    OnGround(g, x, y) && g.kinds[g.Idx(Vec2(x, y))] == Flat
  }

  /** Which cells are flat, by their distances from the tank. */
  type Flatness = (int, int) -> bool

  function FlatFrom(g: Ground, p: Vec2, d: u8): Flatness
    requires g.Sized() && d < 8
  {
    (f: int, s: int) => FlatAt(g, p, d, f, s)
  }

  /** The cone of a straight barrel: one cell to either side, then two, then one, then none. */
  predicate StraightOpen(flat: Flatness, f: int, s: int) {
    if f == 1 then -1 <= s <= 1
    else if f == 2 then
      || s == 1 || s == -1
      || (s == 0 && flat(1, 0)) || (s == 2 && flat(1, 1)) || (s == -2 && flat(1, -1))
    else if f == 3 then -1 <= s <= 1 && flat(1, 0) && flat(2, s)
    else f == 4 && s == 0 && flat(1, 0) && flat(2, 0) && flat(3, 0)
  }

  /** The cell lies on the near edge of the board, and the tank faces that edge. */
  predicate AtEdge(coordinate: int, sign: int) {
    coordinate == 0 && sign < 0
  }

  /** The cone of a diagonal barrel: four by four cells from the tank on, without the two far corners
      beside it.  Two of the cells have two sight lines; the one past the diagonal neighbour is cut off
      when the cell lies in column or row 0 and the tank faces that edge. */
  predicate DiagonalOpen(flat: Flatness, edgeX: bool, edgeY: bool, f: int, s: int) {
    if f == 0 then s == 1 || (s == 2 && flat(0, 1))
    else if f == 1 then
      || s == 0 || s == 1
      || (s == 2 && (flat(0, 1) || (flat(1, 1) && !edgeX)))
      || (s == 3 && flat(0, 1) && flat(1, 2))
    else if f == 2 then
      || (s == 0 && flat(1, 0))
      || (s == 1 && (flat(1, 0) || (flat(1, 1) && !edgeY)))
      || (s == 2 && flat(1, 1))
      || (s == 3 && flat(1, 1) && flat(1, 2) && flat(2, 2))
    else
      && f == 3
      && (|| (s == 1 && flat(1, 0) && flat(2, 1))
          || (s == 2 && flat(1, 1) && flat(2, 1) && flat(2, 2))
          || (s == 3 && flat(1, 1) && flat(2, 2)))
  }

  predicate Open(g: Ground, p: Vec2, d: u8, q: Vec2)
    requires g.Sized() && d < 8
  {
    if d % 2 == 0 then StraightOpen(FlatFrom(g, p, d), Forward(p, d, q), Across(p, d, q))
    else DiagonalOpen(FlatFrom(g, p, d), AtEdge(q.x, Dx(d)), AtEdge(q.y, Dy(d)), Forward(p, d, q), Across(p, d, q))
  }

  /** Foliage is seen from a touching cell only. */
  predicate NotHidden(g: Ground, p: Vec2, q: Vec2)
    requires g.Sized() && g.InBounds(q)
  {
    g.kinds[g.Idx(q)] == Foliage ==> -1 <= q.x - p.x <= 1 && -1 <= q.y - p.y <= 1
  }

  predicate InSight(g: Ground, p: Vec2, d: u8, q: Vec2)
    requires g.Sized() && d < 8 && g.InBounds(q)
  {
    Open(g, p, d, q) && NotHidden(g, p, q)
  }

  /** A cell is where its two distances put it. */
  lemma SpotOf(p: Vec2, d: u8, q: Vec2)
    requires d < 8
    ensures SpotX(p, d, Forward(p, d, q), Across(p, d, q)) == q.x
    ensures SpotY(p, d, Forward(p, d, q), Across(p, d, q)) == q.y
  {
  }

  lemma DistancesOf(p: Vec2, d: u8, f: int, s: int, q: Vec2)
    requires d < 8 && q.x == SpotX(p, d, f, s) && q.y == SpotY(p, d, f, s)
    ensures Forward(p, d, q) == f && Across(p, d, q) == s
  {
  }

  // ---------------------------------------------------------------- what a ray marks

  predicate GoesOn(g: Ground, start: Vec2, ray: Ray, k: nat)
    requires g.Sized()
  {
    Look(g, start, ray(k)).goOn
  }

  predicate Shows(g: Ground, start: Vec2, ray: Ray, k: nat, c: nat)
    requires g.Sized()
  {
    Marked(Look(g, start, ray(k)).acts, c)
  }

  /** Sample k is taken and marks the cell. */
  predicate ShowsAt(g: Ground, start: Vec2, ray: Ray, step: nat, k: nat, c: nat)
    requires g.Sized()
  {
    Shows(g, start, ray, k, c) && forall j: nat :: step <= j < k ==> GoesOn(g, start, ray, j)
  }

  lemma ShowsOneOn(g: Ground, start: Vec2, ray: Ray, step: nat, k: nat, c: nat)
    requires g.Sized() && step < k
    ensures ShowsAt(g, start, ray, step, k, c) <==>
            GoesOn(g, start, ray, step) && ShowsAt(g, start, ray, step + 1, k, c)
  {
  }

  lemma {:induction false} MarkedByWalk(g: Ground, start: Vec2, ray: Ray, step: nat, last: nat, c: nat)
    returns (k: nat)
    requires g.Sized() && Marked(Walk(g, start, ray, step, last), c)
    ensures step <= k <= last && ShowsAt(g, start, ray, step, k, c)
    decreases last + 1 - step
  {
    var l := Look(g, start, ray(step));
    MarkedJoin(l.acts, Walk(g, start, ray, step + 1, last), c);
    if Shows(g, start, ray, step, c) {
      k := step;
    } else {
      k := MarkedByWalk(g, start, ray, step + 1, last, c);
      ShowsOneOn(g, start, ray, step, k, c);
    }
  }

  lemma {:induction false} WalkMarks(g: Ground, start: Vec2, ray: Ray, step: nat, last: nat, k: nat, c: nat)
    requires g.Sized() && step <= k <= last && ShowsAt(g, start, ray, step, k, c)
    ensures Marked(Walk(g, start, ray, step, last), c)
    decreases last + 1 - step
  {
    var l := Look(g, start, ray(step));
    MarkedJoin(l.acts, Walk(g, start, ray, step + 1, last), c);
    if step < k {
      ShowsOneOn(g, start, ray, step, k, c);
      WalkMarks(g, start, ray, step + 1, last, k, c);
    } else {
      assert Shows(g, start, ray, step, c);
    }
  }

  lemma GroundInjective(g: Ground, p: Vec2, q: Vec2)
    requires g.Sized() && g.InBounds(p) && g.InBounds(q) && g.Idx(p) == g.Idx(q)
    ensures p == q
  {
    OffsetInjective(g.width, p.x, p.y, q.x, q.y);
  }

  /** What a sample on a cell shows. */
  lemma LookShows(g: Ground, start: Vec2, sample: Sample, q: Vec2)
    requires g.Sized() && g.InBounds(q)
    ensures Marked(Look(g, start, sample).acts, g.Idx(q)) <==>
            && sample.Near? && sample.pos == q
            && match g.kinds[g.Idx(q)]
               case Terrain => true
               case Foliage => q == start || (-1 <= q.x - start.x <= 1 && -1 <= q.y - start.y <= 1)
               case Flat => sample.exact
  {
    var acts := Look(g, start, sample).acts;
    if sample.Near? && g.InBounds(sample.pos) {
      var c := g.Idx(sample.pos);
      if c == g.Idx(q) {
        GroundInjective(g, sample.pos, q);
      }
      assert See(c) in [See(c)] && Reveal(c) in [Reveal(c)] && Reveal(c) in [Reveal(c), Reveal(c)];
      assert Marks(See(c), c) && Marks(Reveal(c), c);
    }
  }

  lemma LookGoesOn(g: Ground, start: Vec2, sample: Sample)
    requires g.Sized()
    ensures Look(g, start, sample).goOn <==>
            || sample.Between?
            || (sample.Near? && g.InBounds(sample.pos) &&
                (g.kinds[g.Idx(sample.pos)] == Flat || (g.kinds[g.Idx(sample.pos)] == Foliage && sample.pos == start)))
  {
  }

  // ---------------------------------------------------------------- straight rays

  /** How far across the k-th sample of a straight ray lies. */
  function Bend(ray: nat, k: int): int {
    if ray == 0 then k
    else if ray == 1 then 1
    else if ray == 2 then (if k == 1 then 0 else 1)
    else if ray == 3 then 0
    else if ray == 4 then (if k == 1 then 0 else -1)
    else if ray == 5 then -1
    else -k
  }

  /** By how many sixths of a cell it misses that line. */
  function Lag(ray: nat, k: int): int {
    if ray == 2 then (if k == 1 then 2 else if k == 2 then -2 else 0)
    else if ray == 4 then (if k == 1 then -2 else if k == 2 then 2 else 0)
    else 0
  }

  /** Half-way between two cells. */
  predicate Gap(ray: nat, k: int) {
    (ray == 1 || ray == 5) && k == 1
  }

  function StraightLength(ray: nat): nat {
    if ray == 3 then 4 else if ray == 2 || ray == 4 then 3 else 2
  }

  lemma SlopeTimes(ray: nat, k: int)
    requires ray < 7 && 1 <= k <= StraightLength(ray)
    ensures ORTHOGONAL_DISTS[ray] == StraightLength(ray)
    ensures Gap(ray, k) ==> ORTHOGONAL_SLOPES[ray] * k == (if ray == 1 then 3 else -3)
    ensures !Gap(ray, k) ==> ORTHOGONAL_SLOPES[ray] * k == 6 * Bend(ray, k) + Lag(ray, k)
  {
    if ray == 0 {
      assert ORTHOGONAL_SLOPES[0] == 6;
    } else if ray == 1 {
      assert ORTHOGONAL_SLOPES[1] == 3;
    } else if ray == 2 {
      assert ORTHOGONAL_SLOPES[2] == 2;
    } else if ray == 3 {
      assert ORTHOGONAL_SLOPES[3] == 0;
    } else if ray == 4 {
      assert ORTHOGONAL_SLOPES[4] == -2;
    } else if ray == 5 {
      assert ORTHOGONAL_SLOPES[5] == -3;
    } else {
      assert ORTHOGONAL_SLOPES[6] == -6;
    }
  }

  lemma NearestLine(line: int, miss: int)
    requires -2 <= miss <= 2 && miss != 1 && miss != -1
    ensures var sec := 6 * line + miss;
            && 2 * (sec % 6) != 6 && sec / 6 + (if 2 * (sec % 6) > 6 then 1 else 0) == line
            && (sec % 6 == 0 <==> miss == 0)
  {
  }

  /** The slopes of a vertical barrel run the other way. */
  function Turned(d: u8, s: int): int
    requires d < 8
  {
    if Dx(d) == 0 then -s else s
  }

  /** The coordinate across a straight barrel. */
  function Level(d: u8, p: Vec2): int
    requires d < 8
  {
    if Dx(d) == 0 then p.x else p.y
  }

  lemma NearestIs(g: Ground, vertical: bool, p: int, line: int, lag: int)
    requires -2 <= lag <= 2 && lag != 1 && lag != -1
    ensures var x, y := if vertical then line else p, if vertical then p else line;
            NearestCell(g.width, g.height, vertical, p, 6 * line + lag) ==
            if OnGround(g, x, y) && 6 * line + lag >= 0 then Near(Vec2(x, y), lag == 0) else Sample.Miss
  {
    NearestLine(line, lag);
  }

  lemma TurnedTimes(d: u8, slope: int, k: int)
    requires d < 8
    ensures Turned(d, slope) * k == Turned(d, slope * k)
  {
  }

  /** How many sixths of a cell across a sample lies. */
  function Sixths(p: Vec2, d: u8, ray: nat, k: int): int
    requires d < 8
  {
    6 * Level(d, p) + Turned(d, 6 * Bend(ray, k) + Lag(ray, k))
  }

  lemma StraightStep(g: Ground, p: Vec2, d: u8, ray: nat, k: nat, sec: int)
    requires d < 8 && d % 2 == 0 && ray < 7
    requires sec == 6 * Level(d, p) + Turned(d, ORTHOGONAL_SLOPES[ray] * k)
    ensures OrthogonalSample(g.width, g.height, p, d, ray, k) ==
            NearestCell(g.width, g.height, Dx(d) == 0, if Dx(d) == 0 then SpotY(p, d, k, 0) else SpotX(p, d, k, 0), sec)
  {
    TurnedTimes(d, ORTHOGONAL_SLOPES[ray], k);
  }

  /** The sample, in terms of the cell it is nearest to: nothing if the ray has left the board before. */
  lemma StraightSample(g: Ground, p: Vec2, d: u8, ray: nat, k: nat)
    requires d < 8 && d % 2 == 0 && ray < 7 && 1 <= k <= StraightLength(ray) && !Gap(ray, k)
    ensures var x, y := SpotX(p, d, k, Turned(d, Bend(ray, k))), SpotY(p, d, k, Turned(d, Bend(ray, k)));
            OrthogonalSample(g.width, g.height, p, d, ray, k) ==
            if OnGround(g, x, y) && Sixths(p, d, ray, k) >= 0 then Near(Vec2(x, y), Lag(ray, k) == 0) else Sample.Miss
  {
    SlopeTimes(ray, k);
    StraightStep(g, p, d, ray, k, Sixths(p, d, ray, k));
    SideStep(g, p, d, k, Bend(ray, k), Lag(ray, k));
  }

  lemma SideStep(g: Ground, p: Vec2, d: u8, k: int, bend: int, lag: int)
    requires d < 8 && d % 2 == 0 && -2 <= lag <= 2 && lag != 1 && lag != -1
    ensures var x, y := SpotX(p, d, k, Turned(d, bend)), SpotY(p, d, k, Turned(d, bend));
            var sec := 6 * Level(d, p) + Turned(d, 6 * bend + lag);
            NearestCell(g.width, g.height, Dx(d) == 0, if Dx(d) == 0 then SpotY(p, d, k, 0) else SpotX(p, d, k, 0), sec)
            == if OnGround(g, x, y) && sec >= 0 then Near(Vec2(x, y), lag == 0) else Sample.Miss
  {
    var along := if Dx(d) == 0 then SpotY(p, d, k, 0) else SpotX(p, d, k, 0);
    NearestIs(g, Dx(d) == 0, along, Level(d, p) + Turned(d, bend), Turned(d, lag));
  }

  lemma StraightGap(g: Ground, p: Vec2, d: u8, ray: nat, k: nat)
    requires d < 8 && d % 2 == 0 && (ray == 1 || ray == 5) && k == 1
    ensures var sample := OrthogonalSample(g.width, g.height, p, d, ray, k);
            var x, y := SpotX(p, d, 2, Turned(d, Bend(ray, 2))), SpotY(p, d, 2, Turned(d, Bend(ray, 2)));
            !sample.Near? && (OnGround(g, x, y) && g.InBounds(p) ==> sample.Between?)
  {
    SlopeTimes(ray, k);
    StraightStep(g, p, d, ray, k, 6 * Level(d, p) + Turned(d, if ray == 1 then 3 else -3));
  }

  function RayAt(g: Ground, p: Vec2, d: u8, ray: nat): Ray
    requires d < 8 && ray < RayCount(d)
  {
    RayOf(g.width, g.height, p, d, ray)
  }

  /** A ray that goes on past a sample near a cell found that cell flat. */
  lemma StraightPassed(g: Ground, p: Vec2, d: u8, ray: nat, k: nat)
    requires g.Sized() && d < 8 && d % 2 == 0 && ray < 7 && 1 <= k <= StraightLength(ray) && !Gap(ray, k)
    requires GoesOn(g, p, RayAt(g, p, d, ray), k)
    ensures FlatAt(g, p, d, k, Turned(d, Bend(ray, k)))
  {
    StraightSample(g, p, d, ray, k);
    LookGoesOn(g, p, OrthogonalSample(g.width, g.height, p, d, ray, k));
  }

  lemma StraightGoesOn(g: Ground, p: Vec2, d: u8, ray: nat, k: nat)
    requires g.Sized() && d < 8 && d % 2 == 0 && ray < 7 && 1 <= k <= StraightLength(ray) && !Gap(ray, k)
    requires FlatAt(g, p, d, k, Turned(d, Bend(ray, k))) && Sixths(p, d, ray, k) >= 0
    ensures GoesOn(g, p, RayAt(g, p, d, ray), k)
  {
    StraightSample(g, p, d, ray, k);
    LookGoesOn(g, p, OrthogonalSample(g.width, g.height, p, d, ray, k));
  }

  /** The cells before the last one on a straight ray make the cell's sight line. */
  lemma StraightLine(flat: Flatness, d: u8, ray: nat, k: nat)
    requires d < 8 && ray < 7 && 1 <= k <= StraightLength(ray) && !Gap(ray, k)
    requires forall j: nat :: 1 <= j < k && !Gap(ray, j) ==> flat(j, Turned(d, Bend(ray, j)))
    ensures StraightOpen(flat, k, Turned(d, Bend(ray, k)))
  {
    assert k > 1 && !Gap(ray, 1) ==> flat(1, Turned(d, Bend(ray, 1)));
    assert k > 2 ==> flat(2, Turned(d, Bend(ray, 2)));
    assert k > 3 ==> flat(3, Turned(d, Bend(ray, 3)));
  }

  lemma StraightSound(g: Ground, p: Vec2, d: u8, ray: nat, k: nat, q: Vec2)
    requires g.Sized() && g.InBounds(q) && d < 8 && d % 2 == 0 && ray < 7 && 1 <= k <= StraightLength(ray)
    requires ShowsAt(g, p, RayAt(g, p, d, ray), 1, k, g.Idx(q))
    ensures InSight(g, p, d, q)
  {
    LookShows(g, p, OrthogonalSample(g.width, g.height, p, d, ray, k), q);
    if Gap(ray, k) {
      StraightGap(g, p, d, ray, k);
    } else {
      StraightSample(g, p, d, ray, k);
      DistancesOf(p, d, k, Turned(d, Bend(ray, k)), q);
      forall j: nat | 1 <= j < k && !Gap(ray, j)
        ensures FlatFrom(g, p, d)(j, Turned(d, Bend(ray, j)))
      {
        assert GoesOn(g, p, RayAt(g, p, d, ray), j);
        StraightPassed(g, p, d, ray, j);
      }
      StraightLine(FlatFrom(g, p, d), d, ray, k);
    }
  }

  /** The ray that leads to a cell of the cone, f cells forward. */
  function StraightRay(f: int, s: int): nat {
    if s == 0 then 3
    else if f == 3 then (if s > 0 then 2 else 4)
    else if f == 2 && (s == 1 || s == -1) then (if s > 0 then 1 else 5)
    else if s > 0 then 0 else 6
  }

  predicate Leads(ray: nat, f: nat, s: int) {
    ray < 7 && 1 <= f <= StraightLength(ray) && !Gap(ray, f) && Bend(ray, f) == s && Lag(ray, f) == 0
  }

  lemma StraightLeads(flat: Flatness, d: u8, f: int, s: int)
    requires d < 8 && StraightOpen(flat, f, Turned(d, s))
    ensures f >= 0 && Leads(StraightRay(f, s), f, s)
    ensures forall j: nat :: 1 <= j < f && !Gap(StraightRay(f, s), j) ==> flat(j, Turned(d, Bend(StraightRay(f, s), j)))
  {
  }

  /** Nearer samples lie no further out. */
  lemma NearerIsInside(p: Vec2, d: u8, ray: nat, j: nat, f: nat, s: int)
    requires d < 8 && Leads(ray, f, s) && 1 <= j <= f && !Gap(ray, j) && Level(d, p) + Turned(d, s) >= 0
    ensures Sixths(p, d, ray, j) >= 0
  {
  }

  lemma StraightPasses(g: Ground, p: Vec2, d: u8, ray: nat, j: nat, f: nat, s: int)
    requires g.Sized() && g.InBounds(p) && d < 8 && d % 2 == 0 && Leads(ray, f, s) && 1 <= j < f
    requires OnGround(g, SpotX(p, d, f, Turned(d, s)), SpotY(p, d, f, Turned(d, s)))
    requires !Gap(ray, j) ==> FlatAt(g, p, d, j, Turned(d, Bend(ray, j)))
    ensures GoesOn(g, p, RayAt(g, p, d, ray), j)
  {
    if Gap(ray, j) {
      StraightGap(g, p, d, ray, j);
      LookGoesOn(g, p, OrthogonalSample(g.width, g.height, p, d, ray, j));
    } else {
      NearerIsInside(p, d, ray, j, f, s);
      StraightGoesOn(g, p, d, ray, j);
    }
  }

  lemma StraightShows(g: Ground, p: Vec2, d: u8, ray: nat, f: nat, s: int, q: Vec2)
    requires g.Sized() && g.InBounds(q) && d < 8 && d % 2 == 0 && Leads(ray, f, s) && NotHidden(g, p, q)
    requires q.x == SpotX(p, d, f, Turned(d, s)) && q.y == SpotY(p, d, f, Turned(d, s))
    ensures Shows(g, p, RayAt(g, p, d, ray), f, g.Idx(q))
  {
    NearerIsInside(p, d, ray, f, f, s);
    StraightSample(g, p, d, ray, f);
    LookShows(g, p, OrthogonalSample(g.width, g.height, p, d, ray, f), q);
  }

  lemma StraightSeen(g: Ground, p: Vec2, d: u8, q: Vec2) returns (ray: nat, k: nat)
    requires g.Sized() && g.InBounds(q) && g.InBounds(p) && d < 8 && d % 2 == 0 && InSight(g, p, d, q)
    ensures ray < 7 && 1 <= k <= StraightLength(ray) && ShowsAt(g, p, RayAt(g, p, d, ray), 1, k, g.Idx(q))
  {
    var s := Turned(d, Across(p, d, q));
    SpotOf(p, d, q);
    StraightLeads(FlatFrom(g, p, d), d, Forward(p, d, q), s);
    k := Forward(p, d, q);
    ray := StraightRay(k, s);
    StraightShows(g, p, d, ray, k, s, q);
    forall j: nat | 1 <= j < k
      ensures GoesOn(g, p, RayAt(g, p, d, ray), j)
    {
      assert !Gap(ray, j) ==> FlatFrom(g, p, d)(j, Turned(d, Bend(ray, j)));
      StraightPasses(g, p, d, ray, j, k, s);
    }
  }

  // ---------------------------------------------------------------- diagonal rays

  function DiagonalLength(ray: nat): nat {
    if ray == 0 || ray == 2 || ray == 6 || ray == 8 then 4
    else if ray == 1 || ray == 7 then 6
    else if ray == 4 then 8 else 7
  }

  /** How many columns sample k of a diagonal ray lies from the tank; a half goes up or left. */
  function Reach(ray: nat, k: int, back: bool): int {
    if ray == 0 then 0
    else if ray == 1 then (if k <= 3 then 0 else 1)
    else if ray == 2 then (if k <= 2 then 0 else 1)
    else if ray == 3 then (if k == 1 then 0 else if k <= 5 then 1 else 2)
    else if ray == 4 then (if k == 1 then 0 else if k <= 4 then 1 else if k <= 7 then 2 else 3)
    else if ray == 5 then (if k == 1 then 0 else if k <= 3 then 1 else if k <= 6 then 2 else 3)
    else if ray == 6 then (if k == 1 then 0 else if k <= 3 then 1 else 2)
    else if ray == 7 then (if k == 1 then 0 else if k <= 3 then 1 else if k <= 5 then 2 else 3)
    else if back then (if k <= 2 then 1 else 2)
    else if k == 1 then 0 else if k <= 3 then 1 else 2
  }

  /** The sample lies beyond the middle of that column. */
  predicate Past(ray: nat, k: int) {
    || (ray == 1 && k <= 3) || (ray == 2 && k <= 2)
    || (ray == 3 && (k == 1 || k == 4 || k == 5))
    || (ray == 4 && (k == 1 || k == 3 || k == 4 || k == 6 || k == 7))
    || (ray == 5 && (k == 1 || k == 3 || k == 5 || k == 6))
    || (ray == 6 && (k == 1 || k == 3))
    || (ray == 7 && (k == 1 || k == 3 || k == 5))
  }

  /** The distance along the columns, in the unit DiagonalCoordinate counts in. */
  function Run(ray: nat, k: nat): int
    requires ray < 9
  {
    k * DIAGONAL_SLOPES[ray].0 * SIZE_UNIT
  }

  function Times(n: int, unit: int): int {
    if n == 0 then 0 else if n == 1 then unit else if n == 2 then 2 * unit else 3 * unit
  }

  /** The run ends nearest to that column, and past its middle or not. */
  predicate EndsAt(unit: int, run: int, ray: nat, k: nat) {
    && -unit < 2 * (run - Times(Reach(ray, k, false), unit)) <= unit
    && -unit < 2 * (Times(Reach(ray, k, true), unit) - run) <= unit
    && (Past(ray, k) <==> run > Times(Reach(ray, k, true), unit))
  }

  /** Steps along the columns in the directions 0, 1/3, 1/2, 2/3, 1, 3/2, 2, 3 and straight. */
  function RunStep(ray: nat): nat {
    if ray == 0 then 0
    else if ray == 3 || ray == 6 then 200000000
    else if ray == 5 || ray == 7 then 300000000 else 100000000
  }

  function Unit(ray: nat): nat {
    if ray == 0 || ray == 8 then 200000000
    else if ray == 1 || ray == 7 then 632455532
    else if ray == 2 || ray == 6 then 447213580
    else if ray == 4 then 282842720 else 721110260
  }

  lemma Tables(ray: nat)
    requires ray < 9
    ensures DIAGONAL_SLOPES[ray].0 * SIZE_UNIT == RunStep(ray) && 2 * DIAGONAL_SIZES[ray] == Unit(ray)
    ensures DIAGONAL_SLOPES[ray].1 == DIAGONAL_SLOPES[8 - ray].0 && DIAGONAL_SIZES[8 - ray] == DIAGONAL_SIZES[ray]
    ensures 2 * DIAGONAL_DISTS[ray] * DIAGONAL_SIZES[ray] / SIZE_UNIT == DiagonalLength(ray)
  {
  }

  lemma RunIs(ray: nat, k: nat)
    requires ray < 9
    ensures Run(ray, k) == k * RunStep(ray)
  {
    Tables(ray);
    assert Run(ray, k) == k * (DIAGONAL_SLOPES[ray].0 * SIZE_UNIT);
  }

  lemma NearestColumn(ray: nat, k: nat)
    requires ray < 9 && 1 <= k <= DiagonalLength(ray)
    ensures EndsAt(Unit(ray), Run(ray, k), ray, k) && 0 <= Reach(ray, k, false) <= 3 && 0 <= Reach(ray, k, true) <= 3
  {
    RunIs(ray, k);
    Product(k, RunStep(ray));
  }

  /** A product by a small number, spelled out. */
  lemma Product(k: nat, n: nat)
    requires 1 <= k <= 8
    ensures k * n == if k == 1 then n else if k == 2 then 2 * n else if k == 3 then 3 * n else if k == 4 then 4 * n
                     else if k == 5 then 5 * n else if k == 6 then 6 * n else if k == 7 then 7 * n else 8 * n
  {
  }

  lemma BigMultiple(e: int, unit: int)
    requires unit > 0
    ensures e >= 1 ==> e * unit >= unit
    ensures e <= -1 ==> e * unit <= -unit
  {
  }

  lemma DivideExactly(a: int, unit: int, rem: int)
    requires 0 <= rem < unit
    ensures (a * unit + rem) / unit == a && (a * unit + rem) % unit == rem
  {
    var n := a * unit + rem;
    BigMultiple(n / unit - a, unit);
    assert n == (n / unit) * unit + n % unit;
    assert (n / unit - a) * unit == (n / unit) * unit - a * unit;
  }

  lemma SignOfSum(a: int, unit: int, rem: int)
    requires unit > 0 && -unit < 2 * rem <= unit
    ensures a * unit + rem < 0 <==> a < 0 || (a == 0 && rem < 0)
  {
    BigMultiple(a, unit);
  }

  lemma RoundNearest(a: int, unit: nat, rem: int)
    requires unit > 0 && -2 * rem < unit && 2 * rem <= unit
    ensures Rounded(a * unit + rem, unit) == if a < 0 || (a == 0 && rem < 0) then None else Some(a)
  {
    SignOfSum(a, unit, rem);
    if rem >= 0 {
      DivideExactly(a, unit, rem);
    } else {
      DivideExactly(a - 1, unit, unit + rem);
      assert (a - 1) * unit + (unit + rem) == a * unit + rem;
    }
  }

  lemma Multiple(a: int, n: int, unit: int)
    requires 0 <= n <= 3
    ensures Times(n, unit) == n * unit && (a + n) * unit == a * unit + Times(n, unit)
    ensures (a - n) * unit == a * unit - Times(n, unit)
  {
  }

  lemma Onward(start: u8, ray: nat, k: nat)
    requires ray < 9 && 1 <= k <= DiagonalLength(ray)
    ensures Rounded(start * Unit(ray) + Run(ray, k), Unit(ray)) == Some(start + Reach(ray, k, false))
  {
    NearestColumn(ray, k);
    RunIs(ray, k);
    var n, unit := Reach(ray, k, false), Unit(ray);
    Multiple(start, n, unit);
    RoundNearest(start + n, unit, Run(ray, k) - Times(n, unit));
  }

  lemma Backwards(start: u8, ray: nat, k: nat)
    requires ray < 9 && 1 <= k <= DiagonalLength(ray)
    ensures var x := start - Reach(ray, k, true);
            Rounded(start * Unit(ray) - Run(ray, k), Unit(ray)) ==
            if x < 0 || (x == 0 && Past(ray, k)) then None else Some(x)
  {
    NearestColumn(ray, k);
    var n, unit := Reach(ray, k, true), Unit(ray);
    Multiple(start, n, unit);
    RoundNearest(start - n, unit, Times(n, unit) - Run(ray, k));
  }

  /** One coordinate of a sample: nothing past the near edge of the board. */
  lemma ColumnOf(start: u8, sign: int, ray: nat, k: nat)
    requires ray < 9 && 1 <= k <= DiagonalLength(ray) && (sign == 1 || sign == -1)
    ensures var x := start + Along(sign, Reach(ray, k, sign < 0));
            DiagonalCoordinate(start, sign, DIAGONAL_SLOPES[ray].0, DIAGONAL_SIZES[ray], k) ==
            if x < 0 || (AtEdge(x, sign) && Past(ray, k)) then None else Some(x)
  {
    Tables(ray);
    NearestColumn(ray, k);
    Signed(sign, k, DIAGONAL_SLOPES[ray].0);
    if sign > 0 {
      Onward(start, ray, k);
    } else {
      Backwards(start, ray, k);
    }
  }

  lemma Signed(sign: int, k: nat, slope: nat)
    requires sign == 1 || sign == -1
    ensures sign * k * slope * SIZE_UNIT == if sign > 0 then k * slope * SIZE_UNIT else -(k * slope * SIZE_UNIT)
  {
  }

  lemma RowOf(start: u8, sign: int, ray: nat, k: nat)
    requires ray < 9 && 1 <= k <= DiagonalLength(ray) && (sign == 1 || sign == -1)
    ensures var y := start + Along(sign, Reach(8 - ray, k, sign < 0));
            DiagonalCoordinate(start, sign, DIAGONAL_SLOPES[ray].1, DIAGONAL_SIZES[ray], k) ==
            if y < 0 || (AtEdge(y, sign) && Past(8 - ray, k)) then None else Some(y)
  {
    Tables(ray);
    ColumnOf(start, sign, 8 - ray, k);
  }

  /** Columns and rows of sample k from the tank. */
  function Columns(d: u8, ray: nat, k: int): int
    requires d < 8
  {
    Reach(ray, k, Dx(d) < 0)
  }

  function Rows(d: u8, ray: nat, k: int): int
    requires d < 8 && ray < 9
  {
    Reach(8 - ray, k, Dy(d) < 0)
  }

  /** The sample has run over the edge of the board the tank faces, though nearest to the last cell. */
  predicate Over(p: Vec2, d: u8, ray: nat, k: nat)
    requires d < 8 && ray < 9
  {
    var u, v := Columns(d, ray, k), Rows(d, ray, k);
    (AtEdge(SpotX(p, d, u, v), Dx(d)) && Past(ray, k)) || (AtEdge(SpotY(p, d, u, v), Dy(d)) && Past(8 - ray, k))
  }

  lemma SampleFrom(g: Ground, p: Vec2, d: u8, ray: nat, k: nat, x: int, y: int, overX: bool, overY: bool)
    requires d < 8 && d % 2 == 1 && ray < 9
    requires DiagonalCoordinate(p.x, Dx(d), DIAGONAL_SLOPES[ray].0, DIAGONAL_SIZES[ray], k) ==
             if x < 0 || overX then None else Some(x)
    requires DiagonalCoordinate(p.y, Dy(d), DIAGONAL_SLOPES[ray].1, DIAGONAL_SIZES[ray], k) ==
             if y < 0 || overY then None else Some(y)
    ensures DiagonalSample(g.width, g.height, p, d, ray, k) ==
            if OnGround(g, x, y) && !overX && !overY then Near(Vec2(x, y), true) else Sample.Miss
  {
  }

  lemma SampleAt(g: Ground, p: Vec2, d: u8, ray: nat, k: nat, u: int, v: int, pastX: bool, pastY: bool)
    requires d < 8 && d % 2 == 1 && ray < 9
    requires var x := p.x + Along(Dx(d), u);
             DiagonalCoordinate(p.x, Dx(d), DIAGONAL_SLOPES[ray].0, DIAGONAL_SIZES[ray], k) ==
             if x < 0 || (AtEdge(x, Dx(d)) && pastX) then None else Some(x)
    requires var y := p.y + Along(Dy(d), v);
             DiagonalCoordinate(p.y, Dy(d), DIAGONAL_SLOPES[ray].1, DIAGONAL_SIZES[ray], k) ==
             if y < 0 || (AtEdge(y, Dy(d)) && pastY) then None else Some(y)
    ensures var x, y := SpotX(p, d, u, v), SpotY(p, d, u, v);
            DiagonalSample(g.width, g.height, p, d, ray, k) ==
            if OnGround(g, x, y) && !((AtEdge(x, Dx(d)) && pastX) || (AtEdge(y, Dy(d)) && pastY))
            then Near(Vec2(x, y), true) else Sample.Miss
  {
    var x, y := p.x + Along(Dx(d), u), p.y + Along(Dy(d), v);
    SampleFrom(g, p, d, ray, k, x, y, AtEdge(x, Dx(d)) && pastX, AtEdge(y, Dy(d)) && pastY);
  }

  /** ColumnOf and RowOf, given how far the sample lies and whether past the middle. */
  lemma ColumnIs(start: u8, sign: int, ray: nat, k: nat, u: int, past: bool)
    requires ray < 9 && 1 <= k <= DiagonalLength(ray) && (sign == 1 || sign == -1)
    requires u == Reach(ray, k, sign < 0) && past == Past(ray, k)
    ensures var x := start + Along(sign, u);
            DiagonalCoordinate(start, sign, DIAGONAL_SLOPES[ray].0, DIAGONAL_SIZES[ray], k) ==
            if x < 0 || (AtEdge(x, sign) && past) then None else Some(x)
  {
    ColumnOf(start, sign, ray, k);
  }

  lemma RowIs(start: u8, sign: int, ray: nat, k: nat, v: int, past: bool)
    requires ray < 9 && 1 <= k <= DiagonalLength(ray) && (sign == 1 || sign == -1)
    requires v == Reach(8 - ray, k, sign < 0) && past == Past(8 - ray, k)
    ensures var y := start + Along(sign, v);
            DiagonalCoordinate(start, sign, DIAGONAL_SLOPES[ray].1, DIAGONAL_SIZES[ray], k) ==
            if y < 0 || (AtEdge(y, sign) && past) then None else Some(y)
  {
    RowOf(start, sign, ray, k);
  }

  lemma SampleFromRow(g: Ground, p: Vec2, d: u8, ray: nat, k: nat, u: int, v: int, pastX: bool, pastY: bool)
    requires d < 8 && d % 2 == 1 && ray < 9 && 1 <= k <= DiagonalLength(ray)
    requires v == Reach(8 - ray, k, Dy(d) < 0) && pastY == Past(8 - ray, k)
    requires var x := p.x + Along(Dx(d), u);
             DiagonalCoordinate(p.x, Dx(d), DIAGONAL_SLOPES[ray].0, DIAGONAL_SIZES[ray], k) ==
             if x < 0 || (AtEdge(x, Dx(d)) && pastX) then None else Some(x)
    ensures var x, y := SpotX(p, d, u, v), SpotY(p, d, u, v);
            DiagonalSample(g.width, g.height, p, d, ray, k) ==
            if OnGround(g, x, y) && !((AtEdge(x, Dx(d)) && pastX) || (AtEdge(y, Dy(d)) && pastY))
            then Near(Vec2(x, y), true) else Sample.Miss
  {
    RowIs(p.y, Dy(d), ray, k, v, pastY);
    SampleAt(g, p, d, ray, k, u, v, pastX, pastY);
  }

  lemma SampleIs(g: Ground, p: Vec2, d: u8, ray: nat, k: nat, u: int, v: int, pastX: bool, pastY: bool)
    requires d < 8 && d % 2 == 1 && ray < 9 && 1 <= k <= DiagonalLength(ray)
    requires u == Reach(ray, k, Dx(d) < 0) && pastX == Past(ray, k)
    requires v == Reach(8 - ray, k, Dy(d) < 0) && pastY == Past(8 - ray, k)
    ensures var x, y := SpotX(p, d, u, v), SpotY(p, d, u, v);
            DiagonalSample(g.width, g.height, p, d, ray, k) ==
            if OnGround(g, x, y) && !((AtEdge(x, Dx(d)) && pastX) || (AtEdge(y, Dy(d)) && pastY))
            then Near(Vec2(x, y), true) else Sample.Miss
  {
    ColumnIs(p.x, Dx(d), ray, k, u, pastX);
    SampleFromRow(g, p, d, ray, k, u, v, pastX, pastY);
  }

  lemma DiagonalSampleIs(g: Ground, p: Vec2, d: u8, ray: nat, k: nat)
    requires d < 8 && d % 2 == 1 && ray < 9 && 1 <= k <= DiagonalLength(ray)
    ensures var u, v := Columns(d, ray, k), Rows(d, ray, k);
            var x, y := SpotX(p, d, u, v), SpotY(p, d, u, v);
            DiagonalSample(g.width, g.height, p, d, ray, k) ==
            if OnGround(g, x, y) && !Over(p, d, ray, k) then Near(Vec2(x, y), true) else Sample.Miss
  {
    SampleIs(g, p, d, ray, k, Columns(d, ray, k), Rows(d, ray, k), Past(ray, k), Past(8 - ray, k));
  }

  /** The tank's own cell, or a flat one. */
  predicate Clear(flat: Flatness, d: u8, ray: nat, k: nat)
    requires d < 8 && ray < 9
  {
    (Columns(d, ray, k) == 0 && Rows(d, ray, k) == 0) || flat(Columns(d, ray, k), Rows(d, ray, k))
  }

  lemma DiagonalPassed(g: Ground, p: Vec2, d: u8, ray: nat, k: nat)
    requires g.Sized() && d < 8 && d % 2 == 1 && ray < 9 && 1 <= k <= DiagonalLength(ray)
    requires GoesOn(g, p, RayAt(g, p, d, ray), k)
    ensures Clear(FlatFrom(g, p, d), d, ray, k)
  {
    DiagonalSampleIs(g, p, d, ray, k);
    LookGoesOn(g, p, DiagonalSample(g.width, g.height, p, d, ray, k));
    HomeIsZero(p, d, Columns(d, ray, k), Rows(d, ray, k));
  }

  lemma HomeIsZero(p: Vec2, d: u8, f: int, s: int)
    requires d < 8 && d % 2 == 1
    ensures SpotX(p, d, f, s) == p.x && SpotY(p, d, f, s) == p.y <==> f == 0 && s == 0
  {
  }

  lemma DiagonalGoesOn(g: Ground, p: Vec2, d: u8, ray: nat, k: nat)
    requires g.Sized() && d < 8 && d % 2 == 1 && ray < 9 && 1 <= k <= DiagonalLength(ray)
    requires g.InBounds(p) && g.kinds[g.Idx(p)] != Terrain && Clear(FlatFrom(g, p, d), d, ray, k)
    requires !Over(p, d, ray, k)
    ensures GoesOn(g, p, RayAt(g, p, d, ray), k)
  {
    DiagonalSampleIs(g, p, d, ray, k);
    LookGoesOn(g, p, DiagonalSample(g.width, g.height, p, d, ray, k));
    HomeIsZero(p, d, Columns(d, ray, k), Rows(d, ray, k));
  }

  /** The samples before the k-th, from the second on. */
  predicate ClearUpTo(flat: Flatness, d: u8, ray: nat, k: nat)
    requires d < 8 && ray < 9
  {
    && (k > 2 ==> Clear(flat, d, ray, 2)) && (k > 3 ==> Clear(flat, d, ray, 3)) && (k > 4 ==> Clear(flat, d, ray, 4))
    && (k > 5 ==> Clear(flat, d, ray, 5)) && (k > 6 ==> Clear(flat, d, ray, 6))
  }

  /** The cells before a sample make the cell's sight line, or one of its two. */
  lemma DiagonalLine(flat: Flatness, edgeX: bool, edgeY: bool, d: u8, ray: nat, k: nat)
    requires d < 8 && ray < 9 && 1 <= k <= DiagonalLength(ray)
    requires !(edgeX && Past(ray, k)) && !(edgeY && Past(8 - ray, k)) && ClearUpTo(flat, d, ray, k)
    requires Columns(d, ray, k) != 0 || Rows(d, ray, k) != 0
    ensures DiagonalOpen(flat, edgeX, edgeY, Columns(d, ray, k), Rows(d, ray, k))
  {
    if ray < 3 {
      LowLine(flat, edgeX, edgeY, d, ray, k);
    } else if ray < 6 {
      MiddleLine(flat, edgeX, edgeY, d, ray, k);
    } else {
      HighLine(flat, edgeX, edgeY, d, ray, k);
    }
  }

  lemma LowLine(flat: Flatness, edgeX: bool, edgeY: bool, d: u8, ray: nat, k: nat)
    requires d < 8 && ray < 3 && 1 <= k <= DiagonalLength(ray)
    requires !(edgeX && Past(ray, k)) && !(edgeY && Past(8 - ray, k)) && ClearUpTo(flat, d, ray, k)
    requires Columns(d, ray, k) != 0 || Rows(d, ray, k) != 0
    ensures DiagonalOpen(flat, edgeX, edgeY, Columns(d, ray, k), Rows(d, ray, k))
  {
  }

  lemma MiddleLine(flat: Flatness, edgeX: bool, edgeY: bool, d: u8, ray: nat, k: nat)
    requires d < 8 && 3 <= ray < 6 && 1 <= k <= DiagonalLength(ray)
    requires !(edgeX && Past(ray, k)) && !(edgeY && Past(8 - ray, k)) && ClearUpTo(flat, d, ray, k)
    requires Columns(d, ray, k) != 0 || Rows(d, ray, k) != 0
    ensures DiagonalOpen(flat, edgeX, edgeY, Columns(d, ray, k), Rows(d, ray, k))
  {
  }

  lemma HighLine(flat: Flatness, edgeX: bool, edgeY: bool, d: u8, ray: nat, k: nat)
    requires d < 8 && 6 <= ray < 9 && 1 <= k <= DiagonalLength(ray)
    requires !(edgeX && Past(ray, k)) && !(edgeY && Past(8 - ray, k)) && ClearUpTo(flat, d, ray, k)
    requires Columns(d, ray, k) != 0 || Rows(d, ray, k) != 0
    ensures DiagonalOpen(flat, edgeX, edgeY, Columns(d, ray, k), Rows(d, ray, k))
  {
  }

  lemma DiagonalSound(g: Ground, p: Vec2, d: u8, ray: nat, k: nat, q: Vec2)
    requires g.Sized() && g.InBounds(q) && d < 8 && d % 2 == 1 && ray < 9 && 1 <= k <= DiagonalLength(ray)
    requires ShowsAt(g, p, RayAt(g, p, d, ray), 1, k, g.Idx(q)) && q != p
    ensures InSight(g, p, d, q)
  {
    LookShows(g, p, DiagonalSample(g.width, g.height, p, d, ray, k), q);
    DiagonalSampleIs(g, p, d, ray, k);
    DistancesOf(p, d, Columns(d, ray, k), Rows(d, ray, k), q);
    forall j: nat | 1 <= j < k
      ensures Clear(FlatFrom(g, p, d), d, ray, j)
    {
      assert GoesOn(g, p, RayAt(g, p, d, ray), j);
      DiagonalPassed(g, p, d, ray, j);
    }
    assert ClearUpTo(FlatFrom(g, p, d), d, ray, k);
    DiagonalLine(FlatFrom(g, p, d), AtEdge(q.x, Dx(d)), AtEdge(q.y, Dy(d)), d, ray, k);
  }

  /** Sample k of the ray is the first one at the cell f columns and s rows on. */
  predicate LeadsTo(d: u8, ray: nat, k: nat, f: int, s: int)
    requires d < 8
  {
    && ray < 9 && 1 <= k <= DiagonalLength(ray) && Columns(d, ray, k) == f && Rows(d, ray, k) == s
    && 0 <= f <= 3 && 0 <= s <= 3
  }

  /** The ray and the sample that lead to a cell of the cone along an open sight line. */
  function DiagonalRay(flat: Flatness, d: u8, f: int, s: int): (nat, int)
    requires d < 8
  {
    if f == 0 then (0, 2 * s - (if Dy(d) < 0 then 1 else 0))
    else if s == 0 then (8, 2 * f - (if Dx(d) < 0 then 1 else 0))
    else if f == s then (4, if f == 1 then 2 else if f == 2 then 5 else 8)
    else if f == 1 && s == 2 then (if flat(0, 1) then (1, 4) else (3, 4))
    else if f == 2 && s == 1 then (if flat(1, 0) then (7, 4) else (5, 4))
    else if f == 1 then (1, 6)
    else if s == 1 then (7, 6)
    else if f == 2 then (3, 7) else (5, 7)
  }

  lemma DiagonalLeads(flat: Flatness, edgeX: bool, edgeY: bool, d: u8, f: int, s: int, ray: nat, k: int)
    requires d < 8 && DiagonalOpen(flat, edgeX, edgeY, f, s) && (ray, k) == DiagonalRay(flat, d, f, s)
    ensures k >= 1 && LeadsTo(d, ray, k, f, s)
  {
  }

  lemma ClearBefore(flat: Flatness, edgeX: bool, edgeY: bool, d: u8, f: int, s: int, ray: nat, k: nat, j: nat)
    requires d < 8 && DiagonalOpen(flat, edgeX, edgeY, f, s) && (ray, k) == DiagonalRay(flat, d, f, s)
    requires LeadsTo(d, ray, k, f, s) && 1 <= j < k
    ensures Clear(flat, d, ray, j)
  {
  }

  /** On the way no sample in the column or row of the cell runs past its middle, unless another sight
      line is needed than the one an edge cuts off. */
  lemma NotPast(flat: Flatness, edgeX: bool, edgeY: bool, d: u8, f: int, s: int, ray: nat, k: nat, j: nat)
    requires d < 8 && DiagonalOpen(flat, edgeX, edgeY, f, s) && (ray, k) == DiagonalRay(flat, d, f, s)
    requires LeadsTo(d, ray, k, f, s) && 1 <= j <= k
    ensures Columns(d, ray, j) <= f && Rows(d, ray, j) <= s
    ensures edgeX && Dx(d) < 0 && Columns(d, ray, j) == f ==> !Past(ray, j)
    ensures edgeY && Dy(d) < 0 && Rows(d, ray, j) == s ==> !Past(8 - ray, j)
  {
  }

  /** No sample on the way runs over the edge. */
  lemma StaysOnBoard(p: Vec2, d: u8, q: Vec2, flat: Flatness, f: int, s: int, ray: nat, k: nat, j: nat)
    requires d < 8 && d % 2 == 1 && DiagonalOpen(flat, AtEdge(q.x, Dx(d)), AtEdge(q.y, Dy(d)), f, s)
    requires (ray, k) == DiagonalRay(flat, d, f, s) && LeadsTo(d, ray, k, f, s) && 1 <= j <= k
    requires q.x == SpotX(p, d, f, s) && q.y == SpotY(p, d, f, s)
    ensures !Over(p, d, ray, j)
  {
    NotPast(flat, AtEdge(q.x, Dx(d)), AtEdge(q.y, Dy(d)), d, f, s, ray, k, j);
  }

  lemma DiagonalSeen(g: Ground, p: Vec2, d: u8, q: Vec2) returns (ray: nat, k: nat)
    requires g.Sized() && g.InBounds(q) && g.InBounds(p) && g.kinds[g.Idx(p)] != Terrain
    requires d < 8 && d % 2 == 1 && InSight(g, p, d, q)
    ensures ray < 9 && 1 <= k <= DiagonalLength(ray) && ShowsAt(g, p, RayAt(g, p, d, ray), 1, k, g.Idx(q))
  {
    var flat, f, s := FlatFrom(g, p, d), Forward(p, d, q), Across(p, d, q);
    SpotOf(p, d, q);
    var way := DiagonalRay(flat, d, f, s);
    DiagonalLeads(flat, AtEdge(q.x, Dx(d)), AtEdge(q.y, Dy(d)), d, f, s, way.0, way.1);
    ray, k := way.0, way.1;
    StaysOnBoard(p, d, q, flat, f, s, ray, k, k);
    DiagonalSampleIs(g, p, d, ray, k);
    LookShows(g, p, DiagonalSample(g.width, g.height, p, d, ray, k), q);
    forall j: nat | 1 <= j < k
      ensures GoesOn(g, p, RayAt(g, p, d, ray), j)
    {
      ClearBefore(flat, AtEdge(q.x, Dx(d)), AtEdge(q.y, Dy(d)), d, f, s, ray, k, j);
      StaysOnBoard(p, d, q, flat, f, s, ray, k, j);
      DiagonalGoesOn(g, p, d, ray, j);
    }
  }

  // ---------------------------------------------------------------- what a tank sees

  lemma RayMarks(g: Ground, p: Vec2, d: u8, ray: nat, c: nat)
    requires g.Sized() && d < 8 && ray < RayCount(d)
    ensures RayLength(d, ray) == if d % 2 == 0 then StraightLength(ray) else DiagonalLength(ray)
    ensures RayActs(g, p, d, ray) == Walk(g, p, RayAt(g, p, d, ray), 1, RayLength(d, ray))
  {
    if d % 2 == 0 {
      SlopeTimes(ray, StraightLength(ray));
    } else {
      Tables(ray);
    }
  }

  /** A ray marks nothing but cells in sight and the tank's own. */
  lemma RayIsSound(g: Ground, p: Vec2, d: u8, ray: nat, q: Vec2)
    requires g.Sized() && g.InBounds(q) && d < 8 && ray < RayCount(d) && q != p
    requires Marked(RayActs(g, p, d, ray), g.Idx(q))
    ensures InSight(g, p, d, q)
  {
    RayMarks(g, p, d, ray, g.Idx(q));
    var k := MarkedByWalk(g, p, RayAt(g, p, d, ray), 1, RayLength(d, ray), g.Idx(q));
    if d % 2 == 0 {
      StraightSound(g, p, d, ray, k, q);
    } else {
      DiagonalSound(g, p, d, ray, k, q);
    }
  }

  /** Some ray marks each cell in sight. */
  lemma SightIsMarked(g: Ground, p: Vec2, d: u8, q: Vec2) returns (ray: nat)
    requires g.Sized() && g.InBounds(q) && g.InBounds(p) && g.kinds[g.Idx(p)] != Terrain && d < 8 && InSight(g, p, d, q)
    ensures ray < RayCount(d) && Marked(RayActs(g, p, d, ray), g.Idx(q))
  {
    var k;
    if d % 2 == 0 {
      ray, k := StraightSeen(g, p, d, q);
    } else {
      ray, k := DiagonalSeen(g, p, d, q);
    }
    RayMarks(g, p, d, ray, g.Idx(q));
    WalkMarks(g, p, RayAt(g, p, d, ray), 1, RayLength(d, ray), k, g.Idx(q));
  }

  /** A live tank off terrain sees its own cell and exactly the cells in sight. */
  lemma TankSeesIff(g: Ground, t: Tank, q: Vec2)
    requires g.Sized() && g.InBounds(q) && g.InBounds(t.pos) && g.kinds[g.Idx(t.pos)] != Terrain
    requires t.health > 0 && t.barrel < 8 && !t.aimFocused
    ensures Sees(g, t, g.Idx(q)) <==> q == t.pos || InSight(g, t.pos, t.barrel, q)
  {
    var rays := TankRays(g, t);
    if q != t.pos {
      if g.Idx(q) == g.Idx(t.pos) {
        GroundInjective(g, q, t.pos);
      }
      if a :| a in Concat(rays) && Marks(a, g.Idx(q)) {
        ConcatMember(rays, a);
        var r :| 0 <= r < |rays| && a in rays[r];
        RayIsSound(g, t.pos, t.barrel, r, q);
      }
      if InSight(g, t.pos, t.barrel, q) {
        var r := SightIsMarked(g, t.pos, t.barrel, q);
        var a :| a in rays[r] && Marks(a, g.Idx(q));
        ConcatMember(rays, a);
      }
    }
  }

  // ---------------------------------------------------------------- what a player sees

  /** One of the player's live tanks stands on the cell or has it in sight. */
  predicate TankHasInSight(b: Board, player: nat, k: nat, q: Vec2)
    requires b.Slotted() && b.InBounds(q) && player < |b.players| && k < |b.players[player].tankIds|
  {
    var id := b.players[player].tankIds[k];
    && id != NOTHING && id < |b.tanks| && b.tanks[id].health > 0
    && (q == b.tanks[id].pos ||
        (GroundOf(b).Sized() && b.tanks[id].barrel < 8 && InSight(GroundOf(b), b.tanks[id].pos, b.tanks[id].barrel, q)))
  }

  lemma SlotSeesIff(b: Board, player: nat, k: nat, q: Vec2)
    requires b.Consistent() && b.Slotted() && b.InBounds(q) && player < |b.players| && k < b.numTanks
    ensures b.GoodPlayer(player) && GroundOf(b).Sized()
    ensures b.players[player].tankIds[k] != NOTHING ==>
              (Sees(GroundOf(b), b.tanks[b.players[player].tankIds[k]], b.Idx(q)) <==> TankHasInSight(b, player, k, q))
  {
    assert b.GoodPlayer(player);
    var id := b.players[player].tankIds[k];
    if id != NOTHING {
      assert id == Slot(b.numTanks, player, k) && b.GoodTank(id);
      if b.tanks[id].health > 0 {
        assert b.At(b.tanks[id].pos).kind != Terrain;
        TankSeesIff(GroundOf(b), b.tanks[id], q);
      }
    }
  }

  /** A cell is visible in a player's view exactly when one of the player's live tanks stands there or
      has it in sight. */
  lemma VisibleIff(b: Board, player: nat, q: Vec2)
    requires b.Consistent() && b.Slotted() && b.InBounds(q) && player < |b.players|
    ensures b.GoodPlayer(player)
    ensures ComputeView(b, player).cells[b.Idx(q)].visible <==>
            exists k :: 0 <= k < b.numTanks && TankHasInSight(b, player, k, q)
  {
    MaskMeaning(b, player, b.Idx(q));
    forall k | 0 <= k < b.numTanks
      ensures var id := b.players[player].tankIds[k];
              id != NOTHING ==> (Sees(GroundOf(b), b.tanks[id], b.Idx(q)) <==> TankHasInSight(b, player, k, q))
    {
      SlotSeesIff(b, player, k, q);
    }
  }

  lemma FoliageIsNear(b: Board, player: nat, k: nat, q: Vec2)
    requires b.Slotted() && b.InBounds(q) && player < |b.players| && k < |b.players[player].tankIds|
    requires b.At(q).kind == Foliage && TankHasInSight(b, player, k, q)
    ensures var t := b.tanks[b.players[player].tankIds[k]];
            t.health > 0 && -1 <= q.x - t.pos.x <= 1 && -1 <= q.y - t.pos.y <= 1
  {
    assert GroundOf(b).Sized() ==> GroundOf(b).kinds[b.Idx(q)] == b.cells[b.Idx(q)].kind;
  }

  /** Foliage more than one cell away from every live tank of the player's stays hidden. */
  lemma FoliageHides(b: Board, player: nat, q: Vec2) returns (k: nat)
    requires b.Consistent() && b.Slotted() && b.InBounds(q) && player < |b.players|
    requires b.At(q).kind == Foliage && ComputeView(b, player).cells[b.Idx(q)].visible
    ensures b.GoodPlayer(player) && k < b.numTanks && b.players[player].tankIds[k] < |b.tanks|
    ensures var t := b.tanks[b.players[player].tankIds[k]];
            t.health > 0 && -1 <= q.x - t.pos.x <= 1 && -1 <= q.y - t.pos.y <= 1
  {
    VisibleIff(b, player, q);
    k :| 0 <= k < b.numTanks && TankHasInSight(b, player, k, q);
    FoliageIsNear(b, player, k, q);
  }

  /** All cells of the board between a tank and the j-th one ahead are flat. */
  predicate FlatAhead(b: Board, p: Vec2, d: u8, j: nat)
    requires b.Sized() && d < 8
  {
    forall l: nat :: 1 <= l < j && Ahead(b, p, d, l).Some? ==> b.At(Ahead(b, p, d, l).value).kind == Flat
  }

  /** How far a tank sees straight ahead, and how far it shoots: four cells, or three on a diagonal. */
  function Straight(d: u8): nat {
    if d % 2 == 0 then 4 else 3
  }

  lemma AheadIsSpot(b: Board, p: Vec2, d: u8, l: nat)
    requires b.Sized() && d < 8
    ensures var x, y := SpotX(p, d, l, if d % 2 == 0 then 0 else l), SpotY(p, d, l, if d % 2 == 0 then 0 else l);
            Ahead(b, p, d, l) == if 0 <= x < b.width && 0 <= y < b.height then Some(Vec2(x, y)) else None
  {
  }

  lemma FlatAheadIs(b: Board, p: Vec2, d: u8, j: nat, l: nat)
    requires b.Sized() && d < 8 && b.InBounds(p) && FlatAhead(b, p, d, j) && 1 <= l < j && Ahead(b, p, d, j).Some?
    ensures GroundOf(b).Sized() && FlatAt(GroundOf(b), p, d, l, if d % 2 == 0 then 0 else l)
  {
    AheadIsSpot(b, p, d, l);
    AheadIsSpot(b, p, d, j);
    var q := Ahead(b, p, d, l).value;
    assert GroundOf(b).kinds[b.Idx(q)] == b.cells[b.Idx(q)].kind;
  }

  /** The cell ahead is in sight over flat ground, if it is no foliage or the next one. */
  lemma AheadIsInSight(b: Board, p: Vec2, d: u8, j: nat, q: Vec2)
    requires b.Sized() && d < 8 && b.InBounds(p) && 1 <= j <= Straight(d) && Ahead(b, p, d, j) == Some(q)
    requires FlatAhead(b, p, d, j) && (b.At(q).kind == Foliage ==> j == 1)
    ensures GroundOf(b).Sized() && InSight(GroundOf(b), p, d, q)
  {
    var g, across := GroundOf(b), if d % 2 == 0 then 0 else j;
    AheadIsSpot(b, p, d, j);
    DistancesOf(p, d, j, across, q);
    assert g.kinds[b.Idx(q)] == b.cells[b.Idx(q)].kind;
    if j > 1 {
      FlatAheadIs(b, p, d, j, 1);
    }
    if j > 2 {
      FlatAheadIs(b, p, d, j, 2);
    }
    if j > 3 {
      FlatAheadIs(b, p, d, j, 3);
    }
  }

  /** What a tank can hit over flat ground its player sees, and lists. */
  lemma TargetIsSeen(b: Board, player: nat, k: nat, j: nat, q: Vec2)
    requires b.Consistent() && b.Slotted() && player < |b.players| && k < b.numTanks && b.GoodPlayer(player)
    requires var id := b.players[player].tankIds[k];
             && id != NOTHING && id < |b.tanks| && b.tanks[id].health > 0 && b.tanks[id].barrel < 8
             && 1 <= j <= Straight(b.tanks[id].barrel) && StruckAt(b, b.tanks[id].pos, b.tanks[id].barrel, 1, j, q)
             && FlatAhead(b, b.tanks[id].pos, b.tanks[id].barrel, j) && (b.At(q).kind == Foliage ==> j == 1)
    ensures var v := ComputeView(b, player);
            && v.cells[b.Idx(q)].visible && v.cells[b.Idx(q)].occupant == b.At(q).occupant
            && b.tanks[b.At(q).occupant] in v.listed
  {
    var t := b.tanks[b.players[player].tankIds[k]];
    AheadIsInSight(b, t.pos, t.barrel, j, q);
    VisibleIff(b, player, q);
    assert TankHasInSight(b, player, k, q);
    ViewIsExact(b, player, b.Idx(q));
  }

  /** A shot meets the first tank within four cells of a straight barrel or three of a diagonal one. */
  lemma VictimMeaning(b: Board, id: nat, v: u8)
    requires CanShoot(b, id)
    ensures var t := b.tanks[id];
            Victim(b, id) == Some(v) <==>
            exists j, q :: 1 <= j <= (if t.barrel % 2 == 0 then 4 else 3) && StruckAt(b, t.pos, t.barrel, 1, j, q)
                           && b.At(q).occupant == v
  {
    var t := b.tanks[id];
    var shot := Shot(b, t.pos, t.barrel, 1, FiringRange(t.barrel));
    if shot.Some? {
      ShotMeaning(b, t.pos, t.barrel, FiringRange(t.barrel), shot.value);
    }
    if j, q :| 1 <= j <= FiringRange(t.barrel) && StruckAt(b, t.pos, t.barrel, 1, j, q) && b.At(q).occupant == v {
      ShotMeaning(b, t.pos, t.barrel, FiringRange(t.barrel), q);
    }
  }
}
