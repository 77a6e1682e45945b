/** The board of one match as a value: a flat grid of cells, the tank table, and each player's
    list of tank IDs.  The cell grid and the tank table record the same facts twice; `Consistent`
    says when the two records agree.  Every operation is a function from boards to boards. */
module Boards {
  import opened Basics

  /** NO_OCCUPANT, NO_OWNER, NO_TANK and NO_POS are all the largest `uint8_t`. */
  const NOTHING: u8 := 255
  const INITIAL_HEALTH: u8 := 3
  const SHELL_DAMAGE: u8 := 1
  const FIRING_DIST_HORIZONTAL: nat := 4
  const FIRING_DIST_DIAGONAL: nat := 3
  const NO_POS := Vec2(NOTHING, NOTHING)

  datatype CellType = Flat | Foliage | Terrain

  datatype Vec2 = Vec2(x: u8, y: u8)

  datatype Cell = Cell(kind: CellType, occupant: u8, visible: bool)

  datatype Tank = Tank(pos: Vec2, direction: u8, barrel: u8, id: u8, health: u8,
                       aimFocused: bool, loaded: bool, owner: u8)

  datatype Player = Player(placed: u8, tankIds: seq<u8>)

  datatype Board = Board(width: u8, height: u8, numTanks: u8, cells: seq<Cell>, mask: seq<u8>,
                         players: seq<Player>, tanks: seq<Tank>)
  {
    /** What the map loader checks: a grid side is 1..254, and tank IDs stay below NO_TANK. */
    predicate Sized() {
      && 0 < width < NOTHING && 0 < height < NOTHING && 0 < numTanks
      && |cells| == |mask| == width * height
      && |tanks| == |players| * numTanks < NOTHING
      && |players| < NOTHING
    }

    predicate InBounds(p: Vec2) {
      p.x < width && p.y < height
    }

    function Idx(p: Vec2): (i: nat)
      requires Sized() && InBounds(p)
      ensures i < |cells|
    {
      OffsetFits(width, height, p.x, p.y);
      p.x + width * p.y
    }

    function At(p: Vec2): Cell
      requires Sized() && InBounds(p)
    {
      cells[Idx(p)]
    }

    /** The grid after set_occupant. */
    function Occupied(p: Vec2, occupant: u8): seq<Cell>
      requires Sized() && InBounds(p)
    {
      cells[Idx(p) := cells[Idx(p)].(occupant := occupant)]
    }

    function SetTank(i: nat, tank: Tank): (b: Board)
      requires Sized() && i < |tanks|
      ensures b.Sized()
    {
      this.(tanks := tanks[i := tank])
    }

    /** Each occupied cell names a live tank that stands exactly there. */
    predicate Named() {
      && Sized()
      && forall c {:trigger cells[c]} :: 0 <= c < |cells| && cells[c].occupant != NOTHING ==>
           && cells[c].occupant < |tanks|
           && tanks[cells[c].occupant].health > 0
           && InBounds(tanks[cells[c].occupant].pos)
           && Idx(tanks[cells[c].occupant].pos) == c
    }

    /** Each occupied cell names some tank. */
    predicate KnownOccupants() {
      forall c {:trigger cells[c]} :: 0 <= c < |cells| && cells[c].occupant != NOTHING ==> cells[c].occupant < |tanks|
    }

    /** Each live tank is in bounds, off terrain, and named by its own cell. */
    predicate Anchored() {
      && Sized()
      && forall i {:trigger tanks[i]} :: 0 <= i < |tanks| && tanks[i].health > 0 ==>
           && InBounds(tanks[i].pos)
           && At(tanks[i].pos).occupant == i
           && At(tanks[i].pos).kind != Terrain
    }

    predicate Consistent() {
      Named() && Anchored()
    }

    /** Each player owns the tank IDs of one slice of the tank table and has filled a prefix of
        it; the rest of the slice is as the constructor left it. */
    predicate Slotted() {
      && Sized()
      && (forall i :: 0 <= i < |tanks| ==> GoodTank(i))
      && (forall p :: 0 <= p < |players| ==> GoodPlayer(p))
    }

    predicate GoodTank(i: nat)
      requires i < |tanks|
    {
      var t := tanks[i];
      && t.id == i && t.direction < 8 && t.barrel < 8 && !t.aimFocused && t.health <= INITIAL_HEALTH
      && (if t.owner == NOTHING then t == Unplaced(i) else t.owner < |players| && InBounds(t.pos))
    }

    predicate GoodPlayer(p: nat)
      requires Sized() && p < |players|
    {
      && players[p].placed <= numTanks == |players[p].tankIds|
      && forall k {:trigger Slot(numTanks, p, k)} {:trigger players[p].tankIds[k]} :: 0 <= k < numTanks ==>
           && Slot(numTanks, p, k) < |tanks|
           && players[p].tankIds[k] == (if k < players[p].placed then Slot(numTanks, p, k) else NOTHING)
           && tanks[Slot(numTanks, p, k)].owner == (if k < players[p].placed then p else NOTHING)
    }
  }

  /** The tank ID of a player's k-th placement. */
  function Slot(numTanks: nat, player: nat, k: nat): nat {
    k + numTanks * player
  }

  lemma SlotFits(b: Board, p: nat, k: nat)
    requires b.Sized() && p < |b.players| && k < b.numTanks
    ensures Slot(b.numTanks, p, k) < |b.tanks|
  {
    OffsetFits(b.numTanks, |b.players|, k, p);
  }

  lemma SlotInjective(numTanks: nat, p: nat, k: nat, p': nat, k': nat)
    requires k < numTanks && k' < numTanks && Slot(numTanks, p, k) == Slot(numTanks, p', k')
    ensures p == p' && k == k'
  {
    OffsetInjective(numTanks, k, p, k', p');
  }

  /** Every tank ID is some player's slot. */
  lemma SlotOf(b: Board, i: nat) returns (p: nat, k: nat)
    requires b.Sized() && i < |b.tanks|
    ensures p < |b.players| && k < b.numTanks && Slot(b.numTanks, p, k) == i
  {
    p, k := 0, i;
    while k >= b.numTanks
      invariant Slot(b.numTanks, p, k) == i && p < |b.players|
      decreases k
    {
      assert b.numTanks * (p + 1) == b.numTanks * p + b.numTanks;
      FewerRows(b.numTanks, p + 1, |b.players|);
      p, k := p + 1, k - b.numTanks;
    }
  }

  lemma IdxInjective(b: Board, p: Vec2, q: Vec2)
    requires b.Sized() && b.InBounds(p) && b.InBounds(q) && b.Idx(p) == b.Idx(q)
    ensures p == q
  {
    OffsetInjective(b.width, p.x, p.y, q.x, q.y);
  }

  /** A tank record that has not been placed.  The source leaves `id_` of a tank that was never
      placed uninitialised and reads it nowhere; here it starts at the tank's own slot. */
  function Unplaced(i: u8): Tank {
    Tank(NO_POS, 0, 0, i, 0, false, false, NOTHING)
  }

  /** The board of a fresh GameInstance over the given map. */
  function NewBoard(width: u8, height: u8, numTanks: u8, numPlayers: nat,
                    kinds: seq<CellType>, mask: seq<u8>): (b: Board)
    requires 0 < width < NOTHING && 0 < height < NOTHING && 0 < numTanks
    requires |kinds| == |mask| == width * height && numPlayers * numTanks < NOTHING && numPlayers < NOTHING
  {
    Board(width, height, numTanks, seq(|kinds|, c requires 0 <= c < |kinds| => Cell(kinds[c], NOTHING, true)), mask,
          seq(numPlayers, _ => Player(0, seq(numTanks, _ => NOTHING))),
          seq(numPlayers * numTanks, i requires 0 <= i < numPlayers * numTanks => Unplaced(i)))
  }

  lemma NewBoardIsSound(width: u8, height: u8, numTanks: u8, numPlayers: nat,
                        kinds: seq<CellType>, mask: seq<u8>)
    requires 0 < width < NOTHING && 0 < height < NOTHING && 0 < numTanks
    requires |kinds| == |mask| == width * height && numPlayers * numTanks < NOTHING && numPlayers < NOTHING
    ensures var b := NewBoard(width, height, numTanks, numPlayers, kinds, mask);
            b.Consistent() && b.Slotted() && forall p :: 0 <= p < numPlayers ==> b.players[p].placed == 0
  {
    var b := NewBoard(width, height, numTanks, numPlayers, kinds, mask);
    forall i | 0 <= i < |b.tanks|
      ensures b.GoodTank(i)
    {
      assert b.tanks[i] == Unplaced(i);
    }
    forall p | 0 <= p < numPlayers
      ensures b.GoodPlayer(p)
    {
      forall k | 0 <= k < numTanks
        ensures Slot(numTanks, p, k) < |b.tanks| && b.tanks[Slot(numTanks, p, k)].owner == NOTHING
      {
        SlotFits(b, p, k);
        assert b.GoodTank(Slot(numTanks, p, k));
      }
    }
  }

  // ---------------------------------------------------------------- directions

  /** Columns moved by one step in compass direction d (0 is north, clockwise). */
  function Dx(d: u8): int
    requires d < 8
  {
    if d == 0 || d == 4 then 0 else if d < 4 then 1 else -1
  }

  /** Rows moved by one step in compass direction d; rows grow southwards. */
  function Dy(d: u8): int
    requires d < 8
  {
    if d == 2 || d == 6 then 0 else if 2 < d < 6 then 1 else -1
  }

  function Opposite(d: u8): u8 {
    (d + 4) % 8
  }

  /** The cell k steps away in direction d, if the board has it. */
  function Ahead(b: Board, p: Vec2, d: u8, k: nat): Option<Vec2>
    requires d < 8
  {
    var x, y := p.x + k * Dx(d), p.y + k * Dy(d);
    if 0 <= x < b.width && 0 <= y < b.height then Some(Vec2(x, y)) else None
  }

  /** k steps ahead is one step ahead of k - 1 steps ahead. */
  lemma OneStepFurther(b: Board, p: Vec2, d: u8, k: nat, q: Vec2)
    requires d < 8 && k >= 1 && Ahead(b, p, d, k - 1) == Some(q)
    ensures Ahead(b, p, d, k) == Ahead(b, q, d, 1)
  {
    assert k * Dx(d) == (k - 1) * Dx(d) + Dx(d);
    assert k * Dy(d) == (k - 1) * Dy(d) + Dy(d);
  }

  // ---------------------------------------------------------------- moving

  /** A tank may go from one cell to a touching one when the target is free and off terrain and it
      does not squeeze between two terrain corners.  For a straight step one of the two "corners"
      is the target itself, so the last clause only bites on diagonals. */
  predicate CanEnter(b: Board, from: Vec2, to: Vec2)
    requires b.Sized() && b.InBounds(from) && b.InBounds(to)
  {
    && b.At(to).occupant == NOTHING
    && b.At(to).kind != Terrain
    && !(b.At(Vec2(to.x, from.y)).kind == Terrain && b.At(Vec2(from.x, to.y)).kind == Terrain)
  }

  predicate Movable(b: Board, id: nat) {
    b.Sized() && id < |b.tanks| && b.InBounds(b.tanks[id].pos) && b.tanks[id].direction < 8
  }

  function MoveHeading(b: Board, id: nat, reverse: bool): (d: u8)
    requires Movable(b, id)
    ensures d < 8
  {
    if reverse then Opposite(b.tanks[id].direction) else b.tanks[id].direction
  }

  /** Where move_tank takes the tank, if anywhere. */
  function MoveTarget(b: Board, id: nat, reverse: bool): (to: Option<Vec2>)
    requires Movable(b, id)
    ensures to.Some? ==> b.InBounds(to.value)
  {
    match Ahead(b, b.tanks[id].pos, MoveHeading(b, id, reverse), 1)
    case Some(to) => if CanEnter(b, b.tanks[id].pos, to) then Some(to) else None
    case None => None
  }

  function Relocate(b: Board, id: nat, to: Vec2): (b': Board)
    requires Movable(b, id) && b.InBounds(to) && id < 256
    ensures b'.Sized()
  {
    var left := b.Occupied(b.tanks[id].pos, NOTHING);
    b.(tanks := b.tanks[id := b.tanks[id].(pos := to)],
       cells := left[b.Idx(to) := left[b.Idx(to)].(occupant := id)])
  }

  function MoveTank(b: Board, id: nat, reverse: bool): (r: (Board, bool))
    requires Movable(b, id)
    ensures r.0.Sized()
  {
    match MoveTarget(b, id, reverse)
    case Some(to) => (Relocate(b, id, to), true)
    case None => (b, false)
  }

  function Turn(d: u8, dir: u8): u8 {
    if dir == 0 then (d + 1) % 8 else (d + 7) % 8
  }

  function TurnTank(b: Board, id: nat, dir: u8): Board
    requires b.Sized() && id < |b.tanks|
  {
    b.SetTank(id, b.tanks[id].(direction := Turn(b.tanks[id].direction, dir)))
  }

  function TurnBarrel(b: Board, id: nat, dir: u8): Board
    requires b.Sized() && id < |b.tanks|
  {
    b.SetTank(id, b.tanks[id].(barrel := Turn(b.tanks[id].barrel, dir)))
  }

  function SetLoaded(b: Board, id: nat, loaded: bool): Board
    requires b.Sized() && id < |b.tanks|
  {
    b.SetTank(id, b.tanks[id].(loaded := loaded))
  }

  // ---------------------------------------------------------------- firing

  /** The first occupied cell met on steps k..range from p in direction d, if no terrain and no
      edge of the board comes first. */
  function Shot(b: Board, p: Vec2, d: u8, k: nat, range: nat): (hit: Option<Vec2>)
    requires b.Sized() && d < 8
    ensures hit.Some? ==> b.InBounds(hit.value) && b.At(hit.value).occupant != NOTHING
    decreases range + 1 - k
  {
    if k > range then None
    else match Ahead(b, p, d, k)
         case None => None
         case Some(q) =>
           if b.At(q).kind == Terrain then None
           else if b.At(q).occupant != NOTHING then Some(q)
           else Shot(b, p, d, k + 1, range)
  }

  predicate ClearAt(b: Board, p: Vec2, d: u8, k: nat)
    requires b.Sized() && d < 8
  {
    var q := Ahead(b, p, d, k);
    q.Some? && b.At(q.value).kind != Terrain && b.At(q.value).occupant == NOTHING
  }

  /** q is j steps ahead, occupied and off terrain, and every cell from k up to there is clear. */
  predicate StruckAt(b: Board, p: Vec2, d: u8, k: nat, j: nat, q: Vec2)
    requires b.Sized() && d < 8
  {
    && Ahead(b, p, d, j) == Some(q) && b.At(q).kind != Terrain && b.At(q).occupant != NOTHING
    && forall l :: k <= l < j ==> ClearAt(b, p, d, l)
  }

  lemma {:induction false} ShotFinds(b: Board, p: Vec2, d: u8, k: nat, range: nat, q: Vec2) returns (j: nat)
    requires b.Sized() && d < 8 && Shot(b, p, d, k, range) == Some(q)
    ensures k <= j <= range && StruckAt(b, p, d, k, j, q)
    decreases range + 1 - k
  {
    if ClearAt(b, p, d, k) {
      j := ShotFinds(b, p, d, k + 1, range, q);
    } else {
      j := k;
    }
  }

  lemma {:induction false} ShotStops(b: Board, p: Vec2, d: u8, k: nat, range: nat, q: Vec2, j: nat)
    requires b.Sized() && d < 8 && k <= j <= range && StruckAt(b, p, d, k, j, q)
    ensures Shot(b, p, d, k, range) == Some(q)
    decreases j - k
  {
    if k < j {
      assert ClearAt(b, p, d, k);
      ShotStops(b, p, d, k + 1, range, q, j);
    }
  }

  /** A shell strikes q exactly when q is the cell some k steps ahead within range, is occupied and
      off terrain, and every nearer cell exists, is off terrain and is empty. */
  lemma ShotMeaning(b: Board, p: Vec2, d: u8, range: nat, q: Vec2)
    requires b.Sized() && d < 8
    ensures Shot(b, p, d, 1, range) == Some(q) <==> exists j :: 1 <= j <= range && StruckAt(b, p, d, 1, j, q)
  {
    if Shot(b, p, d, 1, range) == Some(q) {
      var j := ShotFinds(b, p, d, 1, range, q);
    }
    if j :| 1 <= j <= range && StruckAt(b, p, d, 1, j, q) {
      ShotStops(b, p, d, 1, range, q, j);
    }
  }

  function FiringRange(barrel: u8): nat {
    if barrel % 2 == 0 then FIRING_DIST_HORIZONTAL else FIRING_DIST_DIAGONAL
  }

  predicate CanShoot(b: Board, id: nat) {
    b.Named() && id < |b.tanks| && b.InBounds(b.tanks[id].pos) && b.tanks[id].barrel < 8
  }

  /** The tank that a shot from tank `id` meets first. */
  function Victim(b: Board, id: nat): (v: Option<u8>)
    requires CanShoot(b, id)
    ensures v.Some? ==> && v.value < |b.tanks| && b.tanks[v.value].health > 0
                        && b.InBounds(b.tanks[v.value].pos)
                        && b.At(b.tanks[v.value].pos).occupant == v.value
  {
    var t := b.tanks[id];
    match Shot(b, t.pos, t.barrel, 1, FiringRange(t.barrel))
    case Some(q) => Some(b.At(q).occupant)
    case None => None
  }

  /** A shell never comes back to the cell it left. */
  lemma {:induction false} ShotLeaves(b: Board, p: Vec2, d: u8, k: nat, range: nat)
    requires b.Sized() && d < 8 && k > 0
    ensures Shot(b, p, d, k, range) != Some(p)
    decreases range + 1 - k
  {
    if k <= range {
      ShotLeaves(b, p, d, k + 1, range);
      assert Dx(d) != 0 || Dy(d) != 0;
      assert k * Dx(d) != 0 || k * Dy(d) != 0;
    }
  }

  lemma VictimIsAnother(b: Board, id: nat)
    requires CanShoot(b, id)
    ensures Victim(b, id).Some? ==> Victim(b, id).value != id
  {
    var t := b.tanks[id];
    ShotLeaves(b, t.pos, t.barrel, 1, FiringRange(t.barrel));
    var hit := Shot(b, t.pos, t.barrel, 1, FiringRange(t.barrel));
    if hit.Some? && b.At(hit.value).occupant == id {
      IdxInjective(b, hit.value, t.pos);
      assert false;
    }
  }

  /** deal_damage(SHELL_DAMAGE), then the cell of a tank at zero health is cleared. */
  function Damage(b: Board, v: u8): (b': Board)
    requires b.Sized() && v < |b.tanks| && b.InBounds(b.tanks[v].pos)
    ensures b'.Sized()
  {
    var health := if SHELL_DAMAGE > b.tanks[v].health then 0 else b.tanks[v].health - SHELL_DAMAGE;
    b.(tanks := b.tanks[v := b.tanks[v].(health := health)],
       cells := if health == 0 then b.Occupied(b.tanks[v].pos, NOTHING) else b.cells)
  }

  /** The server's shot: the shell is spent, and a friendly tank stops it unharmed. */
  function FireTank(b: Board, id: nat): (r: (Board, bool))
    requires CanShoot(b, id)
    ensures r.0.Sized()
  {
    match Victim(b, id)
    case Some(v) =>
      if b.tanks[v].owner == b.tanks[id].owner then (SetLoaded(b, id, false), false)
      else (Damage(SetLoaded(b, id, false), v), true)
    case None => (SetLoaded(b, id, false), false)
  }

  /** The replay's shot damages whatever it meets and reports the position of the tank it hit. */
  function ReplayFireTank(b: Board, id: nat): (r: (Board, Option<Vec2>))
    requires CanShoot(b, id)
    ensures r.0.Sized() && (r.1.Some? ==> b.InBounds(r.1.value))
  {
    match Victim(b, id)
    case Some(v) => (Damage(SetLoaded(b, id, false), v), Some(b.tanks[v].pos))
    case None => (SetLoaded(b, id, false), None)
  }

  // ---------------------------------------------------------------- repairing

  /** `health_ + amount > health_` holds for every amount of one, so a repair always refills. */
  function Repaired(t: Tank): Tank {
    t.(health := INITIAL_HEALTH)
  }

  /** The ID of the last tank standing on `pos` among the first k. */
  function LastAt(tanks: seq<Tank>, pos: Vec2, k: nat): (last: Option<u8>)
    requires k <= |tanks|
    ensures last.Some? <==> exists i :: 0 <= i < k && tanks[i].pos == pos
    ensures last.Some? ==> exists i :: 0 <= i < k && tanks[i].pos == pos && last.value == tanks[i].id
  {
    if k == 0 then None
    else if tanks[k - 1].pos == pos then Some(tanks[k - 1].id)
    else LastAt(tanks, pos, k - 1)
  }

  function RepairAllAt(tanks: seq<Tank>, pos: Vec2): (r: seq<Tank>)
    ensures |r| == |tanks|
    ensures forall i :: 0 <= i < |tanks| ==> r[i] == if tanks[i].pos == pos then Repaired(tanks[i]) else tanks[i]
  {
    seq(|tanks|, i requires 0 <= i < |tanks| => if tanks[i].pos == pos then Repaired(tanks[i]) else tanks[i])
  }

  function CellsNaming(b: Board, pos: Vec2, last: Option<u8>): seq<Cell>
    requires b.Sized() && b.InBounds(pos)
  {
    if last.Some? then b.Occupied(pos, last.value) else b.cells
  }

  predicate CanRepair(b: Board, pos: Vec2) {
    b.Sized() && b.InBounds(pos) && (b.At(pos).occupant != NOTHING ==> b.At(pos).occupant < |b.tanks|)
  }

  /** repair_tank: the occupant if there is one; otherwise every tank lying on the cell comes back,
      the last of them as its occupant. */
  function RepairTank(b: Board, pos: Vec2): (b': Board)
    requires CanRepair(b, pos)
    ensures b'.Sized()
  {
    var occ := b.At(pos).occupant;
    if occ != NOTHING then b.SetTank(occ, Repaired(b.tanks[occ]))
    else
      var last := LastAt(b.tanks, pos, |b.tanks|);
      b.(tanks := RepairAllAt(b.tanks, pos),
         cells := CellsNaming(b, pos, last))
  }

  // ---------------------------------------------------------------- placing

  predicate CanPlace(b: Board, pos: Vec2, player: nat) {
    && b.Sized() && b.InBounds(pos) && player < |b.players|
    && |b.players[player].tankIds| == b.numTanks && b.players[player].placed < b.numTanks
  }

  function PlaceTank(b: Board, pos: Vec2, player: nat, direction: u8): (b': Board)
    requires CanPlace(b, pos, player)
    ensures b'.Sized()
  {
    var pl := b.players[player];
    SlotFits(b, player, pl.placed);
    var id := Slot(b.numTanks, player, pl.placed);
    var health := if b.At(pos).kind == Terrain then 0 else INITIAL_HEALTH;
    b.(tanks := b.tanks[id := Tank(pos, direction, direction, id, health, b.tanks[id].aimFocused, true, player)],
       cells := b.Occupied(pos, id),
       players := b.players[player := Player(pl.placed + 1, pl.tankIds[pl.placed := id])])
  }

  predicate CanRemove(b: Board, pos: Vec2, player: nat) {
    && b.Sized() && b.InBounds(pos) && player < |b.players|
    && |b.players[player].tankIds| == b.numTanks && 0 < b.players[player].placed <= b.numTanks
  }

  function RemoveTank(b: Board, pos: Vec2, player: nat): (b': Board)
    requires CanRemove(b, pos, player)
    ensures b'.Sized()
  {
    var pl := b.players[player];
    SlotFits(b, player, pl.placed - 1);
    var id := Slot(b.numTanks, player, pl.placed - 1);
    b.(tanks := b.tanks[id := Unplaced(id).(aimFocused := b.tanks[id].aimFocused)],
       cells := b.Occupied(pos, NOTHING),
       players := b.players[player := Player(pl.placed - 1, pl.tankIds[pl.placed - 1 := NOTHING])])
  }

  /** check_placement: the cell carries the player's mark in the mask, is off terrain and is empty. */
  predicate CheckPlacement(b: Board, pos: Vec2, player: nat)
    requires b.Sized() && b.InBounds(pos)
  {
    b.mask[b.Idx(pos)] == player && b.At(pos).kind != Terrain && b.At(pos).occupant == NOTHING
  }

  // ---------------------------------------------------------------- eliminating

  /** Whether one of the listed tanks lies on cell c. */
  predicate LiesOn(b: Board, ids: seq<u8>, c: nat)
    requires b.Sized() && KillList(b, ids)
  {
    exists k :: 0 <= k < |ids| && b.Idx(b.tanks[ids[k]].pos) == c
  }

  predicate KillList(b: Board, ids: seq<u8>) {
    forall k :: 0 <= k < |ids| ==> ids[k] < |b.tanks| && b.InBounds(b.tanks[ids[k]].pos)
  }

  /** The tanks of handle_elimination: health to zero, and the cell each one lies on emptied. */
  function KillListed(b: Board, ids: seq<u8>): (b': Board)
    requires b.Sized() && KillList(b, ids)
    ensures b'.Sized()
  {
    b.(tanks := seq(|b.tanks|, i requires 0 <= i < |b.tanks| =>
                    if i in ids then b.tanks[i].(health := 0) else b.tanks[i]),
       cells := seq(|b.cells|, c requires 0 <= c < |b.cells| =>
                    if LiesOn(b, ids, c) then b.cells[c].(occupant := NOTHING) else b.cells[c]))
  }

  /** The number of live tanks among the first k entries of a player's tank list. */
  function LiveAmong(tanks: seq<Tank>, ids: seq<u8>, k: nat): (n: nat)
    requires k <= |ids| && forall j :: 0 <= j < |ids| && ids[j] != NOTHING ==> ids[j] < |tanks|
    ensures n <= k
    ensures n > 0 <==> exists j :: 0 <= j < k && ids[j] != NOTHING && tanks[ids[j]].health > 0
  {
    if k == 0 then 0
    else LiveAmong(tanks, ids, k - 1) + (if ids[k - 1] != NOTHING && tanks[ids[k - 1]].health > 0 then 1 else 0)
  }

  function LiveTanks(b: Board, player: nat): nat
    requires b.Slotted() && player < |b.players|
  {
    assert b.GoodPlayer(player);
    LiveAmong(b.tanks, b.players[player].tankIds, b.numTanks)
  }

  /** The live tanks a player owns. */
  function LiveOwned(b: Board, player: nat): set<int> {
    set i | 0 <= i < |b.tanks| && b.tanks[i].owner == player && b.tanks[i].health > 0
  }

  /** The live tanks among the first k entries of a list. */
  function LiveListed(tanks: seq<Tank>, ids: seq<u8>, k: nat): (r: set<int>)
    requires k <= |ids| && forall j :: 0 <= j < |ids| && ids[j] != NOTHING ==> ids[j] < |tanks|
  {
    if k == 0 then {}
    else LiveListed(tanks, ids, k - 1) +
         (if ids[k - 1] != NOTHING && tanks[ids[k - 1]].health > 0 then {ids[k - 1]} else {})
  }

  lemma {:induction false} InLiveListed(tanks: seq<Tank>, ids: seq<u8>, k: nat, i: int)
    requires k <= |ids| && forall j :: 0 <= j < |ids| && ids[j] != NOTHING ==> ids[j] < |tanks|
    ensures i in LiveListed(tanks, ids, k) <==>
            exists j :: 0 <= j < k && ids[j] == i && i != NOTHING && tanks[i].health > 0
  {
    if k > 0 {
      InLiveListed(tanks, ids, k - 1, i);
    }
  }

  lemma {:induction false} LiveAmongCounts(tanks: seq<Tank>, ids: seq<u8>, k: nat)
    requires k <= |ids| && forall j :: 0 <= j < |ids| && ids[j] != NOTHING ==> ids[j] < |tanks|
    requires forall i, j :: 0 <= i < j < |ids| && ids[j] != NOTHING ==> ids[i] != ids[j]
    ensures LiveAmong(tanks, ids, k) == |LiveListed(tanks, ids, k)|
  {
    if k > 0 {
      LiveAmongCounts(tanks, ids, k - 1);
      InLiveListed(tanks, ids, k - 1, ids[k - 1]);
      if ids[k - 1] != NOTHING {
        assert ids[k - 1] !in LiveListed(tanks, ids, k - 1);
      }
    }
  }

  lemma OwnedIsListed(b: Board, player: nat, i: nat)
    requires b.Slotted() && player < |b.players| && i < |b.tanks| && b.tanks[i].owner == player
    ensures i in b.players[player].tankIds && i != NOTHING
  {
    var p, k := SlotOf(b, i);
    assert b.GoodPlayer(p) && b.tanks[Slot(b.numTanks, p, k)].owner == player;
    assert b.players[p].tankIds[k] == i;
  }

  lemma ListIsDistinct(b: Board, player: nat, i: nat, j: nat)
    requires b.Slotted() && player < |b.players| && i < j < |b.players[player].tankIds|
    requires b.players[player].tankIds[j] != NOTHING
    ensures b.players[player].tankIds[i] != b.players[player].tankIds[j]
  {
    assert b.GoodPlayer(player);
    assert Slot(b.numTanks, player, i) != Slot(b.numTanks, player, j);
  }

  /** The count is the number of live tanks the player owns. */
  lemma LiveTanksIsTrueCount(b: Board, player: nat)
    requires b.Slotted() && player < |b.players|
    ensures LiveTanks(b, player) == |LiveOwned(b, player)|
  {
    assert b.GoodPlayer(player);
    var ids := b.players[player].tankIds;
    forall i, j | 0 <= i < j < |ids| && ids[j] != NOTHING
      ensures ids[i] != ids[j]
    {
      ListIsDistinct(b, player, i, j);
    }
    LiveAmongCounts(b.tanks, ids, b.numTanks);
    forall i | i in LiveOwned(b, player)
      ensures i in LiveListed(b.tanks, ids, b.numTanks)
    {
      OwnedIsListed(b, player, i);
      InLiveListed(b.tanks, ids, b.numTanks, i);
    }
    forall i | i in LiveListed(b.tanks, ids, b.numTanks)
      ensures i in LiveOwned(b, player)
    {
      InLiveListed(b.tanks, ids, b.numTanks, i);
      var k :| 0 <= k < |ids| && ids[k] == i;
      assert b.tanks[Slot(b.numTanks, player, k)].owner == player;
    }
    assert LiveOwned(b, player) == LiveListed(b.tanks, ids, b.numTanks);
  }
}
