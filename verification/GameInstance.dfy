/** The game instance as the source keeps it: a flat array of cells and an array of tanks, updated
    in place.  Each method is tied to the board function of the same name. */
module GameInstances {
  import opened Basics
  import opened Boards
  import opened Commands
  import opened Vision

  /** dir_to_vec, with -1 stored as 255 in a `uint8_t`. */
  const DIR_TO_VEC: seq<Vec2> := [Vec2(0, 255), Vec2(1, 255), Vec2(1, 0), Vec2(1, 1),
                                  Vec2(0, 1), Vec2(255, 1), Vec2(255, 0), Vec2(255, 255)]

  function WithOccupant(cells: seq<Cell>, c: nat, occupant: u8): seq<Cell>
    requires c < |cells|
  {
    cells[c := cells[c].(occupant := occupant)]
  }

  /** The cell names the last of the tanks seen so far. */
  lemma OccupiedAgain(b: Board, pos: Vec2, i: nat)
    requires b.Sized() && b.InBounds(pos) && i < |b.tanks|
    ensures CellsNaming(b, pos, LastAt(b.tanks, pos, i + 1)) ==
            (if b.tanks[i].pos != pos then CellsNaming(b, pos, LastAt(b.tanks, pos, i))
             else WithOccupant(CellsNaming(b, pos, LastAt(b.tanks, pos, i)), b.Idx(pos), b.tanks[i].id))
  {
  }

  class GameInstance {
    const width: u8
    const height: u8
    const numTanks: u8
    const mask: seq<u8>
    var players: seq<Player>
    const cells: array<Cell>
    const tanks: array<Tank>

    ghost function Contents(): Board
      reads this, cells, tanks
    {
      Board(width, height, numTanks, cells[..], mask, players, tanks[..])
    }

    constructor (width: u8, height: u8, numTanks: u8, numPlayers: nat, kinds: seq<CellType>, mask: seq<u8>)
      requires 0 < width < NOTHING && 0 < height < NOTHING && 0 < numTanks
      requires |kinds| == |mask| == width * height && numPlayers * numTanks < NOTHING && numPlayers < NOTHING
      ensures fresh(cells) && fresh(tanks)
      ensures Contents() == NewBoard(width, height, numTanks, numPlayers, kinds, mask)
    {
      this.width, this.height, this.numTanks, this.mask := width, height, numTanks, mask;
      players := seq(numPlayers, _ => Player(0, seq(numTanks, _ => NOTHING)));
      cells := new Cell[|kinds|](i requires 0 <= i < |kinds| => Cell(kinds[i], NOTHING, true));
      tanks := new Tank[numPlayers * numTanks](i requires 0 <= i < numPlayers * numTanks => Unplaced(i));
    }

    function Offset(p: Vec2): (i: nat)
      requires p.x < width && p.y < height && cells.Length == width * height
      ensures i < cells.Length
    {
      OffsetFits(width, height, p.x, p.y);
      p.x + width * p.y
    }

    method RotateTank(id: nat, dir: u8)
      requires Contents().Sized() && id < tanks.Length
      modifies tanks
      ensures Contents() == TurnTank(old(Contents()), id, dir)
    {
      tanks[id] := tanks[id].(direction :=
        if dir == 0 then (tanks[id].direction + 1) % 8 else (tanks[id].direction + 7) % 8);
    }

    method RotateTankBarrel(id: nat, dir: u8)
      requires Contents().Sized() && id < tanks.Length
      modifies tanks
      ensures Contents() == TurnBarrel(old(Contents()), id, dir)
    {
      tanks[id] := tanks[id].(barrel := if dir == 0 then (tanks[id].barrel + 1) % 8 else (tanks[id].barrel + 7) % 8);
    }

    method LoadTank(id: nat)
      requires Contents().Sized() && id < tanks.Length
      modifies tanks
      ensures Contents() == SetLoaded(old(Contents()), id, true)
    {
      tanks[id] := tanks[id].(loaded := true);
    }

    method UnloadTank(id: nat)
      requires Contents().Sized() && id < tanks.Length
      modifies tanks
      ensures Contents() == SetLoaded(old(Contents()), id, false)
    {
      tanks[id] := tanks[id].(loaded := false);
    }

    /** The bounds checks of the eight headings, in wrapping `uint8_t` arithmetic. */
    method NextCell(prev: Vec2, dir: u8) returns (next: Option<Vec2>)
      requires Contents().Sized() && Contents().InBounds(prev) && dir < 8
      ensures next == Ahead(Contents(), prev, dir, 1)
    {
      var north, south := Wrap8(prev.y - 1), Wrap8(prev.y + 1);
      var west, east := Wrap8(prev.x - 1), Wrap8(prev.x + 1);
      match dir {
        case 0 => next := if north > height - 1 then None else Some(Vec2(prev.x, north));
        case 1 => next := if north > height - 1 || east > width - 1 then None else Some(Vec2(east, north));
        case 2 => next := if east > width - 1 then None else Some(Vec2(east, prev.y));
        case 3 => next := if south > height - 1 || east > width - 1 then None else Some(Vec2(east, south));
        case 4 => next := if south > height - 1 then None else Some(Vec2(prev.x, south));
        case 5 => next := if south > height - 1 || west > width - 1 then None else Some(Vec2(west, south));
        case 6 => next := if west > width - 1 then None else Some(Vec2(west, prev.y));
        case _ => next := if north > height - 1 || west > width - 1 then None else Some(Vec2(west, north));
      }
    }

    method Relocate(id: u8, pos: Vec2)
      requires Movable(Contents(), id) && Contents().InBounds(pos)
      modifies cells, tanks
      ensures Contents() == Boards.Relocate(old(Contents()), id, pos)
    {
      var prev := tanks[id].pos;
      tanks[id] := tanks[id].(pos := pos);
      cells[Offset(prev)] := cells[Offset(prev)].(occupant := NOTHING);
      cells[Offset(pos)] := cells[Offset(pos)].(occupant := id);
    }

    /** The checks of a step onto a neighbouring cell, in the order of the source. */
    method IsOpen(prev: Vec2, pos: Vec2, dir: u8) returns (open: bool)
      requires Contents().Sized() && Contents().InBounds(prev) && dir < 8
      requires Ahead(Contents(), prev, dir, 1) == Some(pos)
      ensures open == CanEnter(Contents(), prev, pos)
    {
      var moved := cells[Offset(pos)];
      if moved.occupant != NOTHING {
        return false;
      }
      if moved.kind == Terrain {
        return false;
      }
      // A diagonal step must not cut between two mountains.
      if dir % 2 == 1 {
        var m1, m2 := Vec2(pos.x, prev.y), Vec2(prev.x, pos.y);
        return !(cells[Offset(m1)].kind == Terrain && cells[Offset(m2)].kind == Terrain);
      }
      open := true;
    }

    method MoveTank(id: u8, reverse: bool) returns (ok: bool)
      requires Movable(Contents(), id)
      modifies cells, tanks
      ensures (Contents(), ok) == Boards.MoveTank(old(Contents()), id, reverse)
    {
      var dir := tanks[id].direction;
      if reverse {
        dir := (dir + 4) % 8;
      }
      var next := NextCell(tanks[id].pos, dir);
      if next.None? {
        return false;
      }
      ok := IsOpen(tanks[id].pos, next.value, dir);
      if ok {
        Relocate(id, next.value);
      }
    }

    /** One step of a shell: vec2 addition wraps, and an off-board coordinate is out of range. */
    method StepShell(loc: Vec2, barrel: u8) returns (next: Option<Vec2>)
      requires Contents().Sized() && Contents().InBounds(loc) && barrel < 8
      ensures next == Ahead(Contents(), loc, barrel, 1)
    {
      var dir := DIR_TO_VEC[barrel];
      var moved := Vec2(Wrap8(loc.x + dir.x), Wrap8(loc.y + dir.y));
      next := if moved.x > width - 1 || moved.y > height - 1 then None else Some(moved);
    }

    /** The shell's flight, shared by both shots: the first occupied cell in range, if any. */
    method FlyShell(id: u8) returns (hit: Option<Vec2>)
      requires CanShoot(Contents(), id)
      ensures hit == Shot(Contents(), tanks[id].pos, tanks[id].barrel, 1, FiringRange(tanks[id].barrel))
    {
      ghost var b := Contents();
      var start, barrel := tanks[id].pos, tanks[id].barrel;
      var loc := start;
      var distance := if barrel % 2 == 0 then FIRING_DIST_HORIZONTAL else FIRING_DIST_DIAGONAL;
      var i := 1;
      while i <= distance
        invariant 1 <= i <= distance + 1
        invariant Ahead(b, start, barrel, i - 1) == Some(loc)
        invariant Shot(b, start, barrel, 1, distance) == Shot(b, start, barrel, i, distance)
      {
        OneStepFurther(b, start, barrel, i, loc);
        var next := StepShell(loc, barrel);
        if next.None? {
          return None;
        }
        loc := next.value;
        var cell := cells[Offset(loc)];
        if cell.kind == Terrain {
          return None;
        }
        if cell.occupant != NOTHING {
          return Some(loc);
        }
        i := i + 1;
      }
      return None;
    }

    method DealDamage(v: u8)
      requires Contents().Sized() && v < tanks.Length && Contents().InBounds(tanks[v].pos)
      modifies cells, tanks
      ensures Contents() == Damage(old(Contents()), v)
    {
      if SHELL_DAMAGE > tanks[v].health {
        tanks[v] := tanks[v].(health := 0);
      } else {
        tanks[v] := tanks[v].(health := tanks[v].health - SHELL_DAMAGE);
      }
      if tanks[v].health == 0 {
        var pos := tanks[v].pos;
        cells[Offset(pos)] := cells[Offset(pos)].(occupant := NOTHING);
      }
    }

    method FireTank(id: u8) returns (ok: bool)
      requires CanShoot(Contents(), id)
      modifies cells, tanks
      ensures (Contents(), ok) == Boards.FireTank(old(Contents()), id)
    {
      var hit := FlyShell(id);
      UnloadTank(id);
      if hit.None? {
        return false;
      }
      var v := cells[Offset(hit.value)].occupant;
      if tanks[v].owner == tanks[id].owner {
        return false;
      }
      DealDamage(v);
      ok := true;
    }

    method ReplayFireTank(id: u8) returns (status: MoveStatus)
      requires CanShoot(Contents(), id)
      modifies cells, tanks
      ensures var r := Boards.ReplayFireTank(old(Contents()), id);
              Contents() == r.0 && status == if r.1.Some? then MoveStatus(true, [r.1.value]) else Flag(false)
    {
      var hit := FlyShell(id);
      UnloadTank(id);
      if hit.None? {
        return Flag(false);
      }
      var v := cells[Offset(hit.value)].occupant;
      DealDamage(v);
      status := MoveStatus(true, [tanks[v].pos]);
    }

    method RepairTank(pos: Vec2)
      requires CanRepair(Contents(), pos)
      requires forall i :: 0 <= i < tanks.Length ==> tanks[i].id == i
      modifies cells, tanks
      ensures Contents() == Boards.RepairTank(old(Contents()), pos)
    {
      var occ := cells[Offset(pos)].occupant;
      if occ != NOTHING {
        tanks[occ] := tanks[occ].(health := INITIAL_HEALTH);
      } else {
        ReviveAt(pos);
      }
    }

    /** Every dead tank lying on the cell comes back; the last one visited occupies it. */
    method ReviveAt(pos: Vec2)
      requires Contents().Sized() && Contents().InBounds(pos)
      modifies cells, tanks
      ensures tanks[..] == RepairAllAt(old(tanks[..]), pos)
      ensures cells[..] == CellsNaming(old(Contents()), pos, LastAt(old(tanks[..]), pos, tanks.Length))
    {
      ghost var b, repaired := Contents(), RepairAllAt(tanks[..], pos);
      for i := 0 to tanks.Length
        invariant forall j :: 0 <= j < i ==> tanks[j] == repaired[j]
        invariant forall j :: i <= j < tanks.Length ==> tanks[j] == b.tanks[j]
        invariant cells[..] == CellsNaming(b, pos, LastAt(b.tanks, pos, i))
      {
        OccupiedAgain(b, pos, i);
        if tanks[i].pos == pos {
          ReviveOne(pos, i);
        }
      }
    }

    method ReviveOne(pos: Vec2, i: nat)
      requires Contents().Sized() && Contents().InBounds(pos) && i < tanks.Length
      modifies cells, tanks
      ensures tanks[..] == old(tanks[..])[i := Repaired(old(tanks[i]))]
      ensures cells[..] == WithOccupant(old(cells[..]), Offset(pos), old(tanks[i].id))
    {
      tanks[i] := tanks[i].(health := INITIAL_HEALTH);
      SetOccupant(pos, tanks[i].id);
    }

    method SetOccupant(pos: Vec2, occupant: u8)
      requires Contents().Sized() && Contents().InBounds(pos)
      modifies cells
      ensures cells[..] == old(Contents()).Occupied(pos, occupant)
      ensures cells[..] == WithOccupant(old(cells[..]), Offset(pos), occupant)
    {
      cells[Offset(pos)] := cells[Offset(pos)].(occupant := occupant);
    }

    method PlaceTank(pos: Vec2, player: u8, direction: u8)
      requires CanPlace(Contents(), pos, player)
      modifies this`players, cells, tanks
      ensures Contents() == Boards.PlaceTank(old(Contents()), pos, player, direction)
    {
      var p := players[player];
      SlotFits(Contents(), player, p.placed);
      var id: u8 := p.placed + player * numTanks;
      tanks[id] := Tank(pos, direction, direction, id, INITIAL_HEALTH, tanks[id].aimFocused, true, player);
      cells[Offset(pos)] := cells[Offset(pos)].(occupant := id);
      players := players[player := Player(p.placed + 1, p.tankIds[p.placed := id])];
      if cells[Offset(pos)].kind == Terrain {
        tanks[id] := tanks[id].(health := 0);
      }
    }

    method RemoveTank(pos: Vec2, player: u8)
      requires CanRemove(Contents(), pos, player)
      modifies this`players, cells, tanks
      ensures Contents() == Boards.RemoveTank(old(Contents()), pos, player)
    {
      var p := players[player];
      SlotFits(Contents(), player, p.placed - 1);
      var id: u8 := (p.placed - 1) + player * numTanks;
      tanks[id] := Tank(NO_POS, 0, 0, id, 0, tanks[id].aimFocused, false, NOTHING);
      cells[Offset(pos)] := cells[Offset(pos)].(occupant := NOTHING);
      players := players[player := Player(p.placed - 1, p.tankIds[p.placed - 1 := NOTHING])];
    }

    // -------------------------------------------------------------- views

    // Each of the following is given the view so far and returns it with its own acts added.

    method TakeSample(view: View, start: Vec2, sample: Sample) returns (result: View, goOn: bool)
      requires Contents().Sized() && Contents().KnownOccupants() && |view.cells| == cells.Length
      ensures GroundOf(Contents()).Sized()
      ensures var l := Look(GroundOf(Contents()), start, sample);
              goOn == l.goOn && result == DoAll(Contents(), view, l.acts)
    {
      LookEffect(Contents(), view, start, sample);
      result := view;
      if !sample.Near? {
        return result, sample.Between?;
      }
      var q := sample.pos;
      if q.x > width - 1 || q.y > height - 1 {
        return result, false;
      }
      var c := Offset(q);
      if cells[c].kind == Terrain {
        result := result.(cells := result.cells[c := result.cells[c].(visible := true)]);
        return result, false;
      }
      if cells[c].kind == Foliage {
        if Beside(start, q) {
          result := RevealCell(result, c);
        }
        if q != start {
          return result, false;
        }
      }
      if cells[c].kind == Foliage || sample.exact {
        result := RevealCell(result, c);
      }
      goOn := true;
    }

    method CastRay(view: View, start: Vec2, ray: Ray, last: nat) returns (result: View)
      requires Contents().Sized() && Contents().KnownOccupants() && |view.cells| == cells.Length
      ensures GroundOf(Contents()).Sized()
      ensures result == DoAll(Contents(), view, Walk(GroundOf(Contents()), start, ray, 1, last))
    {
      ghost var b, g := Contents(), GroundOf(Contents());
      result := view;
      var step := 1;
      while step <= last
        invariant 1 <= step && |result.cells| == |b.cells|
        invariant DoAll(b, result, Walk(g, start, ray, step, last)) == DoAll(b, view, Walk(g, start, ray, 1, last))
      {
        ghost var l := Look(g, start, ray(step));
        DoAllJoin(b, result, l.acts, Walk(g, start, ray, step + 1, last));
        var goOn;
        result, goOn := TakeSample(result, start, ray(step));
        if !goOn {
          return;
        }
        step := step + 1;
      }
    }

    method LookAround(view: View, t: Tank) returns (result: View)
      requires Contents().Sized() && Contents().KnownOccupants() && |view.cells| == cells.Length
      ensures GroundOf(Contents()).Sized()
      ensures result == DoAll(Contents(), view, Concat(TankRays(GroundOf(Contents()), t)))
    {
      ghost var b, rays := Contents(), TankRays(GroundOf(Contents()), t);
      result := view;
      for r := 0 to RayCount(t.barrel)
        invariant |result.cells| == |b.cells| && result == DoAll(b, view, Concat(rays[..r]))
      {
        ConcatNext(rays, r);
        DoAllJoin(b, view, Concat(rays[..r]), rays[r]);
        result := CastRay(result, t.pos, RayOf(width, height, t.pos, t.barrel, r), RayLength(t.barrel, r));
      }
      assert rays[..RayCount(t.barrel)] == rays;
    }

    method LookFrom(view: View, id: u8) returns (result: View)
      requires Contents().Sized() && Contents().KnownOccupants() && |view.cells| == cells.Length
      requires id < tanks.Length && (tanks[id].health > 0 ==> Contents().InBounds(tanks[id].pos))
      ensures GroundOf(Contents()).Sized()
      ensures result == DoAll(Contents(), view, TankActs(GroundOf(Contents()), id, tanks[id]))
    {
      TankEffect(Contents(), view, id);
      result := ShowOwn(view, id);
      if tanks[id].health > 0 && !tanks[id].aimFocused {
        result := LookAround(result, tanks[id]);
      }
    }

    method ShowOwn(view: View, id: u8) returns (result: View)
      requires Contents().Sized() && |view.cells| == cells.Length
      requires id < tanks.Length && (tanks[id].health > 0 ==> Contents().InBounds(tanks[id].pos))
      ensures result == OwnShown(Contents(), view, id)
    {
      result := view.(listed := view.listed + [tanks[id]]);
      if tanks[id].health > 0 {
        var c := Offset(tanks[id].pos);
        result := result.(cells := result.cells[c := result.cells[c].(occupant := id, visible := true)]);
      }
    }

    /** The player's view, and the number of the player's tanks still alive. */
    method ComputeView(player: nat) returns (view: View, live: nat)
      requires Contents().Named() && Contents().Slotted() && player < |players|
      ensures view == Vision.ComputeView(Contents(), player)
      ensures live == LiveTanks(Contents(), player)
    {
      ghost var b := Contents();
      assert b.GoodPlayer(player) && b.KnownOccupants();
      var ids := players[player].tankIds;
      view := View(seq(cells.Length, c requires 0 <= c < cells.Length reads this, cells =>
                         Cell(cells[c].kind, NOTHING, false)), []);
      assert view == Blank(b);
      live := 0;
      for k := 0 to numTanks
        invariant view == ViewUpTo(b, player, k)
        invariant live == LiveAmong(b.tanks, ids, k)
      {
        ViewStep(b, player, k);
        if ids[k] != NOTHING {
          view := LookFrom(view, ids[k]);
          if tanks[ids[k]].health > 0 {
            live := live + 1;
          }
        }
      }
      assert PlayerActs(b, player)[..numTanks] == PlayerActs(b, player);
    }

    /** A cell and whoever stands on it become visible. */
    method RevealCell(view: View, c: nat) returns (result: View)
      requires |view.cells| == cells.Length && Valid(Contents(), Reveal(c))
      ensures result == Do(Contents(), view, Reveal(c))
    {
      var occ := cells[c].occupant;
      result := view.(cells := view.cells[c := view.cells[c].(occupant := occ, visible := true)]);
      if occ != NOTHING {
        result := result.(listed := result.listed + [tanks[occ]]);
      }
    }
  }
}
