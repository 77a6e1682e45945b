/** Stepping a recorded history forwards and backwards. */
module Replay {
  import opened Basics
  import opened Boards
  import opened Commands

  // ---------------------------------------------------------------- one step

  /** What step_backward_turn relies on: hit positions and cell occupants are valid indices. */
  predicate Revertible(b: Board, st: MoveStatus) {
    && b.Slotted()
    && (forall k :: 0 <= k < |st.hits| ==> b.InBounds(st.hits[k]))
    && b.KnownOccupants()
  }

  /** The inverse of one command, given the status its forward step left. */
  function Revert(b: Board, c: CommandHead, st: MoveStatus): Outcome
    requires Revertible(b, st)
  {
    if c.kind == Place then
      if !b.InBounds(Target(c)) then Rejected
      else if c.sender < |b.players| && 0 < b.players[c.sender].placed then
        assert b.GoodPlayer(c.sender);
        Applied(RemoveTank(b, Target(c), c.sender), st)
      else OutOfRange
    else if !MayCommand(b, c) then Rejected
    else
      assert b.GoodTank(c.tankId) && forall i :: 0 <= i < |b.tanks| ==> b.GoodTank(i) ==> b.tanks[i].id == i;
      match c.kind
      case Move =>
        Applied(if st.success then MoveTank(b, c.tankId, c.first == 0).0 else b, st)
      case RotateTank => Applied(TurnTank(b, c.tankId, if c.first == 0 then 1 else 0), st)
      case RotateBarrel => Applied(TurnBarrel(b, c.tankId, if c.first == 0 then 1 else 0), st)
      case Fire =>
        if b.tanks[c.tankId].loaded then Rejected
        else Applied(SetLoaded(if st.success then RepairHits(b, st.hits) else b, c.tankId, true), st)
      case Load =>
        if !b.tanks[c.tankId].loaded then Rejected
        else Applied(SetLoaded(b, c.tankId, false), st)
      case _ => Rejected
  }

  /** repair_tank on each recorded hit, in order. */
  function RepairHits(b: Board, hits: seq<Vec2>): (b': Board)
    requires b.Sized() && forall k :: 0 <= k < |hits| ==> b.InBounds(hits[k])
    requires b.KnownOccupants()
    requires forall i :: 0 <= i < |b.tanks| ==> b.tanks[i].id == i
    ensures b'.Sized() && |b'.tanks| == |b.tanks|
    decreases |hits|
  {
    if hits == [] then b
    else
      var b1 := RepairTank(b, hits[0]);
      assert forall k :: 0 <= k < |hits[1..]| ==> hits[1..][k] == hits[k + 1] && b.InBounds(hits[k + 1]);
      RepairHits(b1, hits[1..])
  }

  /** The last of the tanks lying on a cell is the one a repair names. */
  lemma {:induction false} LastAtIsLast(tanks: seq<Tank>, pos: Vec2, k: nat, i: nat)
    requires i < k <= |tanks| && tanks[i].pos == pos && forall j :: i < j < k ==> tanks[j].pos != pos
    ensures LastAt(tanks, pos, k) == Some(tanks[i].id)
    decreases k
  {
    if i < k - 1 {
      LastAtIsLast(tanks, pos, k - 1, i);
    }
  }

  // ---------------------------------------------------------------- runs

  datatype Run = Run(board: Board, statuses: seq<MoveStatus>)

  /** The history is one every step of which applies, with placements on free cells off terrain:
      what the server records. */
  predicate Recorded(b: Board, cmds: seq<CommandHead>)
    requires Ready(b)
    decreases |cmds|
  {
    cmds == [] ||
    (LegalPlacement(b, cmds[0]) && ReplayApply(b, cmds[0]).Applied? &&
     (ReplayKeepsBoard(b, cmds[0]); Recorded(ReplayApply(b, cmds[0]).board, cmds[1..])))
  }

  /** |cmds| forward steps. */
  function Forward(b: Board, cmds: seq<CommandHead>): (r: Run)
    requires Ready(b) && Recorded(b, cmds)
    ensures |r.statuses| == |cmds|
    decreases |cmds|
  {
    if cmds == [] then Run(b, [])
    else
      ReplayKeepsBoard(b, cmds[0]);
      var o := ReplayApply(b, cmds[0]);
      var r := Forward(o.board, cmds[1..]);
      Run(r.board, [o.status] + r.statuses)
  }

  /** |cmds| backward steps, last command first.  None if some step is refused. */
  ghost function Backward(b: Board, cmds: seq<CommandHead>, statuses: seq<MoveStatus>): Option<Board>
    requires |statuses| == |cmds|
    decreases |cmds|
  {
    if cmds == [] then Some(b)
    else
      match Backward(b, cmds[1..], statuses[1..])
      case None => None
      case Some(b1) =>
        if Revertible(b1, statuses[0]) && Revert(b1, cmds[0], statuses[0]).Applied?
        then Some(Revert(b1, cmds[0], statuses[0]).board) else None
  }

  // ---------------------------------------------------------------- what a reversal repairs

  /** The tanks that undoing a shot repairs: the one it hit and, if the shot was the last for that
      tank, every other tank lying on the cell. */
  function RepairedBy(b: Board, c: CommandHead): set<int>
    requires Ready(b)
  {
    if c.kind == Fire && MayCommand(b, c) then
      CommandedIsPlaced(b, c);
      match Victim(b, c.tankId)
      case None => {}
      case Some(v) => RepairedAfter(b, v)
    else {}
  }

  function RepairedAfter(b: Board, v: u8): set<int>
    requires v < |b.tanks|
  {
    if b.tanks[v].health <= SHELL_DAMAGE
    then set i | 0 <= i < |b.tanks| && b.tanks[i].pos == b.tanks[v].pos
    else {v as int}
  }

  /** The tanks that undoing a whole history repairs. */
  function RepairedIn(b: Board, cmds: seq<CommandHead>): set<int>
    requires Ready(b) && Recorded(b, cmds)
    decreases |cmds|
  {
    if cmds == [] then {}
    else
      ReplayKeepsBoard(b, cmds[0]);
      RepairedBy(b, cmds[0]) + RepairedIn(ReplayApply(b, cmds[0]).board, cmds[1..])
  }

  /** The backward board t next to the forward board s it retraces, after the tanks in r have been
      repaired.  Only two things may differ.  A repaired tank is at full health.  And a cell may
      name a dead tank that a repair brought back on top of the live one standing there; both are
      then at full health. */
  ghost predicate Retraces(s: Board, t: Board, r: set<int>) {
    && s.Sized() && t.Sized()
    && t == s.(cells := t.cells, tanks := t.tanks)
    && TanksRetrace(s, t, r)
    && CellsRetrace(s, t)
  }

  ghost predicate TanksRetrace(s: Board, t: Board, r: set<int>) {
    && |t.tanks| == |s.tanks|
    && forall i {:trigger t.tanks[i]} {:trigger s.tanks[i]} :: 0 <= i < |s.tanks| ==>
         t.tanks[i] == if i in r && s.tanks[i].owner != NOTHING then Repaired(s.tanks[i]) else s.tanks[i]
  }

  ghost predicate CellsRetrace(s: Board, t: Board)
    requires s.Sized() && t.Sized() && |t.tanks| == |s.tanks|
  {
    && |t.cells| == |s.cells|
    && forall c {:trigger t.cells[c]} {:trigger s.cells[c]} :: 0 <= c < |s.cells| ==>
         && t.cells[c] == s.cells[c].(occupant := t.cells[c].occupant)
         && (t.cells[c].occupant != s.cells[c].occupant ==> Haunted(s, t, c))
  }

  ghost predicate Haunted(s: Board, t: Board, c: nat)
    requires s.Sized() && t.Sized() && c < |s.cells| == |t.cells| && |s.tanks| == |t.tanks|
  {
    var live, ghostly := s.cells[c].occupant, t.cells[c].occupant;
    && live != NOTHING && ghostly != NOTHING
    && live < |s.tanks| && ghostly < |s.tanks|
    && s.tanks[ghostly].health == 0 && t.tanks[ghostly].health == INITIAL_HEALTH
    && s.InBounds(s.tanks[ghostly].pos) && s.Idx(s.tanks[ghostly].pos) == c
    && t.tanks[live].health == INITIAL_HEALTH
  }

  lemma RetracesIsSlotted(s: Board, t: Board, r: set<int>)
    requires s.Slotted() && Retraces(s, t, r)
    ensures t.Slotted()
  {
    forall i | 0 <= i < |t.tanks|
      ensures t.GoodTank(i)
    {
      assert s.GoodTank(i);
    }
    forall p | 0 <= p < |t.players|
      ensures t.GoodPlayer(p)
    {
      assert s.GoodPlayer(p);
    }
  }

  lemma RetracesIsRevertible(s: Board, t: Board, r: set<int>, st: MoveStatus)
    requires s.Slotted() && s.Named() && Retraces(s, t, r)
    requires forall k :: 0 <= k < |st.hits| ==> s.InBounds(st.hits[k])
    ensures Revertible(t, st)
  {
    RetracesIsSlotted(s, t, r);
  }

  // ---------------------------------------------------------------- undoing one step

  lemma OppositeHeading(d: u8)
    requires d < 8
    ensures Opposite(d) < 8 && Dx(Opposite(d)) == -Dx(d) && Dy(Opposite(d)) == -Dy(d)
    ensures Opposite(Opposite(d)) == d
  {
  }

  lemma StepBack(s: Board, t: Board, p: Vec2, d: u8, q: Vec2)
    requires d < 8 && t.width == s.width && t.height == s.height && s.InBounds(p)
    requires Ahead(s, p, d, 1) == Some(q)
    ensures Opposite(d) < 8 && Ahead(t, q, Opposite(d), 1) == Some(p)
  {
    OppositeHeading(d);
  }

  /** Going back re-passes the checks of the forward move: the cell left behind is free and off
      terrain, and the two corners of a diagonal step are the same two cells. */
  lemma WayBackIsOpen(s: Board, t: Board, id: nat, to: Vec2, r: set<int>)
    requires s.Consistent() && s.Slotted() && id < |s.tanks| && s.tanks[id].health > 0 && Movable(s, id)
    requires s.InBounds(to) && CanEnter(s, s.tanks[id].pos, to)
    requires Retraces(Relocate(s, id, to), t, r)
    ensures CanEnter(t, to, s.tanks[id].pos)
  {
    var from := s.tanks[id].pos;
    var s' := Relocate(s, id, to);
    assert s.At(from).occupant == id && s.At(to).occupant == NOTHING;
    assert s'.At(from).occupant == NOTHING;
    assert t.cells[s.Idx(from)].occupant == NOTHING;
    assert t.At(Vec2(to.x, from.y)).kind == s'.At(Vec2(to.x, from.y)).kind;
    assert t.At(Vec2(from.x, to.y)).kind == s'.At(Vec2(from.x, to.y)).kind;
    assert t.At(from).kind == s'.At(from).kind;
  }

  /** A cell the step leaves alone keeps its relation when tank `id` is the only one the forward
      step changed, is alive after it, and is left at full health if the cell names it. */
  lemma SameCell(s: Board, s': Board, t: Board, t1: Board, c: nat, id: nat)
    requires s.Sized() && s'.Sized() && t.Sized() && t1.Sized() && c < |s.cells| && id < |s.tanks|
    requires |s.tanks| == |s'.tanks| == |t.tanks| == |t1.tanks| && s'.width == s.width && s'.height == s.height
    requires |s.cells| == |s'.cells| == |t.cells| == |t1.cells|
    requires s'.cells[c].occupant == s.cells[c].occupant && t1.cells[c].occupant == t.cells[c].occupant
    requires t.cells[c].occupant != s'.cells[c].occupant ==> Haunted(s', t, c)
    requires forall i :: 0 <= i < |s.tanks| && i != id ==> s'.tanks[i] == s.tanks[i]
    requires forall i :: 0 <= i < |s.tanks| && i != id && t.tanks[i].health == INITIAL_HEALTH ==>
               t1.tanks[i].health == INITIAL_HEALTH
    requires s'.tanks[id].health > 0 || (s'.InBounds(s'.tanks[id].pos) && s'.Idx(s'.tanks[id].pos) != c)
    requires s.cells[c].occupant == id && t.tanks[id].health == INITIAL_HEALTH ==> t1.tanks[id].health == INITIAL_HEALTH
    ensures t1.cells[c].occupant != s.cells[c].occupant ==> Haunted(s, t1, c)
  {
  }

  lemma UndoMove(s: Board, t: Board, id: nat, reverse: bool, r: set<int>)
    requires s.Consistent() && s.Slotted() && id < |s.tanks| && s.tanks[id].health > 0 && Movable(s, id)
    requires MoveTarget(s, id, reverse).Some?
    requires Retraces(Relocate(s, id, MoveTarget(s, id, reverse).value), t, r)
    ensures Movable(t, id) && MoveTank(t, id, !reverse).1
    ensures Retraces(s, MoveTank(t, id, !reverse).0, r)
  {
    var from, to := s.tanks[id].pos, MoveTarget(s, id, reverse).value;
    var s' := Relocate(s, id, to);
    WayBackIsOpen(s, t, id, to, r);
    StepBack(s, t, from, MoveHeading(s, id, reverse), to);
    OppositeHeading(s.tanks[id].direction);
    assert t.tanks[id].pos == to && t.tanks[id].direction == s.tanks[id].direction;
    assert MoveTarget(t, id, !reverse) == Some(from);
    var t1 := Relocate(t, id, from);
    assert s.At(from).occupant == id && s.At(to).occupant == NOTHING;
    forall c | 0 <= c < |s.cells|
      ensures t1.cells[c] == s.cells[c].(occupant := t1.cells[c].occupant)
      ensures t1.cells[c].occupant != s.cells[c].occupant ==> Haunted(s, t1, c)
    {
      if c != s.Idx(from) && c != s.Idx(to) {
        SameCell(s, s', t, t1, c, id);
      }
    }
  }

  lemma UndoRetouch(s: Board, t: Board, id: nat, before: Tank, after: Tank, r: set<int>)
    requires s.Sized() && id < |s.tanks| && s.tanks[id] == before
    requires after.pos == before.pos && after.health == before.health && after.owner == before.owner
    requires Retraces(s.SetTank(id, after), t, r)
    ensures var undone := if id in r && before.owner != NOTHING then Repaired(before) else before;
            Retraces(s, t.SetTank(id, undone), r)
  {
    var s' := s.SetTank(id, after);
    var undone := if id in r && before.owner != NOTHING then Repaired(before) else before;
    var t1 := t.SetTank(id, undone);
    forall c | 0 <= c < |s.cells| && t1.cells[c].occupant != s.cells[c].occupant
      ensures Haunted(s, t1, c)
    {
      assert Haunted(s', t, c);
    }
  }

  lemma UndoPlaceTanks(s: Board, t: Board, pos: Vec2, player: nat, direction: u8, r: set<int>)
    requires s.Slotted() && CanPlace(s, pos, player)
    requires Retraces(PlaceTank(s, pos, player, direction), t, r)
    ensures CanRemove(t, pos, player)
    ensures RemoveTank(t, pos, player).players == s.players && TanksRetrace(s, RemoveTank(t, pos, player), r)
  {
    assert s.GoodPlayer(player);
    var placed := s.players[player].placed;
    SlotFits(s, player, placed);
    var id := Slot(s.numTanks, player, placed);
    assert s.GoodTank(id) && s.tanks[id] == Unplaced(id);
    var s' := PlaceTank(s, pos, player, direction);
    assert t.players[player].placed == placed + 1;
    var t1 := RemoveTank(t, pos, player);
    assert t1.tanks == t.tanks[id := Unplaced(id).(aimFocused := t.tanks[id].aimFocused)];
    assert !t.tanks[id].aimFocused;
    assert s.players[player].tankIds[placed] == NOTHING;
    assert t1.players[player].tankIds == s.players[player].tankIds;
    assert t1.players == s.players;
  }

  lemma UndoPlace(s: Board, t: Board, pos: Vec2, player: nat, direction: u8, r: set<int>)
    requires s.Named() && s.Slotted() && CanPlace(s, pos, player) && s.At(pos).occupant == NOTHING
    requires Retraces(PlaceTank(s, pos, player, direction), t, r)
    ensures CanRemove(t, pos, player) && Retraces(s, RemoveTank(t, pos, player), r)
  {
    UndoPlaceTanks(s, t, pos, player, direction, r);
    var s', t1 := PlaceTank(s, pos, player, direction), RemoveTank(t, pos, player);
    assert s.GoodPlayer(player);
    var id := Slot(s.numTanks, player, s.players[player].placed);
    SlotFits(s, player, s.players[player].placed);
    assert s.GoodTank(id) && s.tanks[id].health == 0;
    assert s'.tanks[id].pos == pos;
    forall c | 0 <= c < |s.cells|
      ensures t1.cells[c] == s.cells[c].(occupant := t1.cells[c].occupant)
      ensures t1.cells[c].occupant != s.cells[c].occupant ==> Haunted(s, t1, c)
    {
      if c != s.Idx(pos) {
        SameCell(s, s', t, t1, c, id);
      }
    }
  }

  /** The occupant repair_tank finds after a wound: the victim, or a tank brought back on top of
      it, and then both are at full health already. */
  lemma WoundedOccupant(s: Board, t: Board, v: u8, r: set<int>)
    requires s.Anchored() && v < |s.tanks| && s.tanks[v].health > SHELL_DAMAGE
    requires Retraces(Damage(s, v), t, r)
    ensures var occ := t.At(s.tanks[v].pos).occupant;
            occ == v || (occ < |s.tanks| && t.tanks[occ].health == t.tanks[v].health == INITIAL_HEALTH)
  {
    var cell := s.Idx(s.tanks[v].pos);
    assert Damage(s, v).cells == s.cells && s.cells[cell].occupant == v;
    if t.cells[cell].occupant != v {
      assert Haunted(Damage(s, v), t, cell);
    }
  }

  lemma UndoWound(s: Board, t: Board, v: u8, r: set<int>)
    requires s.Anchored() && s.Slotted() && v < |s.tanks| && s.tanks[v].health > SHELL_DAMAGE
    requires Retraces(Damage(s, v), t, r)
    ensures CanRepair(t, s.tanks[v].pos) && Retraces(s, RepairTank(t, s.tanks[v].pos), {v as int} + r)
  {
    assert s.GoodTank(v);
    WoundedOccupant(s, t, v, r);
    var s', t1 := Damage(s, v), RepairTank(t, s.tanks[v].pos);
    assert s'.tanks == s.tanks[v := s.tanks[v].(health := s.tanks[v].health - 1)];
    assert t1.tanks[v] == Repaired(s.tanks[v]) && t1.tanks == t.tanks[v := t1.tanks[v]];
    assert t1.cells == t.cells && s'.cells == s.cells;
    forall c | 0 <= c < |s.cells| && t1.cells[c].occupant != s.cells[c].occupant
      ensures Haunted(s, t1, c)
    {
      assert Haunted(s', t, c);
    }
  }

  lemma KilledCellIsFree(s: Board, t: Board, v: u8, r: set<int>)
    requires s.Sized() && v < |s.tanks| && 0 < s.tanks[v].health <= SHELL_DAMAGE && s.InBounds(s.tanks[v].pos)
    requires Retraces(Damage(s, v), t, r)
    ensures t.At(s.tanks[v].pos).occupant == NOTHING
  {
    assert Damage(s, v).cells[s.Idx(s.tanks[v].pos)].occupant == NOTHING;
  }

  lemma UndoKillTanks(s: Board, t: Board, v: u8, r: set<int>)
    requires s.Slotted() && v < |s.tanks| && 0 < s.tanks[v].health <= SHELL_DAMAGE
    requires s.InBounds(s.tanks[v].pos) && TanksRetrace(Damage(s, v), t, r)
    ensures TanksRetrace(s, t.(tanks := RepairAllAt(t.tanks, s.tanks[v].pos)), RepairedAfter(s, v) + r)
  {
    var after := s.tanks[v].(health := 0);
    assert Damage(s, v).tanks == s.tanks[v := after];
    forall j | 0 <= j < |s.tanks|
      ensures s.tanks[j].pos == s.tanks[v].pos ==> s.tanks[j].owner != NOTHING
    {
      assert s.GoodTank(j);
    }
  }

  /** The tank that repair_tank names on the cell is the victim or one that lay dead under it. */
  lemma LastIsVictimOrDead(s: Board, t: Board, v: u8, r: set<int>)
    requires s.Anchored() && s.Slotted() && v < |s.tanks| && s.tanks[v].health > 0
    requires Retraces(Damage(s, v), t, r)
    ensures var last := LastAt(t.tanks, s.tanks[v].pos, |t.tanks|);
            && last.Some? && last.value < |s.tanks| && s.tanks[last.value].pos == s.tanks[v].pos
            && (last.value != v ==> s.tanks[last.value].health == 0)
  {
    var pos := s.tanks[v].pos;
    assert t.tanks[v].pos == pos;
    var last := LastAt(t.tanks, pos, |t.tanks|).value;
    var i :| 0 <= i < |t.tanks| && t.tanks[i].pos == pos && last == t.tanks[i].id;
    assert s.GoodTank(i);
    assert s.At(s.tanks[v].pos).occupant == v;
    assert s.tanks[i].health > 0 ==> s.At(s.tanks[i].pos).occupant == i;
  }

  /** The emptied cell names its victim again, or a tank that lay dead under it. */
  lemma KilledCellComesBack(s: Board, t: Board, v: u8, r: set<int>)
    requires s.Anchored() && s.Slotted() && v < |s.tanks| && 0 < s.tanks[v].health <= SHELL_DAMAGE
    requires Retraces(Damage(s, v), t, r)
    ensures CanRepair(t, s.tanks[v].pos)
    ensures var t1, c := RepairTank(t, s.tanks[v].pos), s.Idx(s.tanks[v].pos);
            && t1.cells[c] == s.cells[c].(occupant := t1.cells[c].occupant)
            && |t1.tanks| == |s.tanks| && (t1.cells[c].occupant != s.cells[c].occupant ==> Haunted(s, t1, c))
  {
    KilledCellIsFree(s, t, v, r);
    LastIsVictimOrDead(s, t, v, r);
    var pos := s.tanks[v].pos;
    var t1, last := RepairTank(t, pos), LastAt(t.tanks, pos, |t.tanks|).value;
    assert t.tanks[v].pos == pos && t.tanks[last].pos == pos;
    assert t1.tanks[last] == Repaired(t.tanks[last]) && t1.tanks[v] == Repaired(t.tanks[v]);
    assert s.cells[s.Idx(pos)].occupant == v && t1.cells[s.Idx(pos)].occupant == last;
  }

  lemma OtherCellStays(s: Board, t: Board, v: u8, r: set<int>, c: nat)
    requires s.Anchored() && v < |s.tanks| && 0 < s.tanks[v].health <= SHELL_DAMAGE
    requires Retraces(Damage(s, v), t, r) && c < |s.cells| && c != s.Idx(s.tanks[v].pos)
    requires t.At(s.tanks[v].pos).occupant == NOTHING
    ensures var t1 := RepairTank(t, s.tanks[v].pos);
            && t1.cells[c] == s.cells[c].(occupant := t1.cells[c].occupant)
            && (t1.cells[c].occupant != s.cells[c].occupant ==> Haunted(s, t1, c))
  {
    var t1 := RepairTank(t, s.tanks[v].pos);
    assert t1.cells[c] == t.cells[c] && Damage(s, v).cells[c] == s.cells[c];
    SameCell(s, Damage(s, v), t, t1, c, v);
  }

  lemma UndoKill(s: Board, t: Board, v: u8, r: set<int>)
    requires s.Consistent() && s.Slotted() && v < |s.tanks| && 0 < s.tanks[v].health <= SHELL_DAMAGE
    requires Retraces(Damage(s, v), t, r)
    ensures CanRepair(t, s.tanks[v].pos)
    ensures Retraces(s, RepairTank(t, s.tanks[v].pos), RepairedAfter(s, v) + r)
  {
    KilledCellIsFree(s, t, v, r);
    UndoKillTanks(s, t, v, r);
    KilledCellComesBack(s, t, v, r);
    forall c | 0 <= c < |s.cells| && c != s.Idx(s.tanks[v].pos)
      ensures var t1 := RepairTank(t, s.tanks[v].pos);
              && t1.cells[c] == s.cells[c].(occupant := t1.cells[c].occupant)
              && (t1.cells[c].occupant != s.cells[c].occupant ==> Haunted(s, t1, c))
    {
      OtherCellStays(s, t, v, r, c);
    }
  }

  lemma UndoTouched(s: Board, t: Board, c: CommandHead, st: MoveStatus, after: Tank, r: set<int>)
    requires s.Consistent() && s.Slotted() && MayCommand(s, c) && st.hits == []
    requires after == s.tanks[c.tankId].(direction := after.direction, barrel := after.barrel, loaded := after.loaded)
    requires after.direction < 8 && after.barrel < 8
    requires Retraces(s.SetTank(c.tankId, after), t, r)
    ensures Revertible(t, st) && MayCommand(t, c)
    ensures var b := t.tanks[c.tankId].(direction := s.tanks[c.tankId].direction,
                       barrel := s.tanks[c.tankId].barrel, loaded := s.tanks[c.tankId].loaded);
            Retraces(s, t.SetTank(c.tankId, b), r)
  {
    RetouchKeeps(s, c.tankId, after);
    RetracesIsRevertible(s.SetTank(c.tankId, after), t, r, st);
    UndoRetouch(s, t, c.tankId, s.tanks[c.tankId], after, r);
  }

  lemma UndoDamage(s: Board, t: Board, v: u8, r: set<int>)
    requires s.Consistent() && s.Slotted() && v < |s.tanks| && s.tanks[v].health > 0
    requires Retraces(Damage(s, v), t, r)
    ensures CanRepair(t, s.tanks[v].pos)
    ensures Retraces(s, RepairTank(t, s.tanks[v].pos), RepairedAfter(s, v) + r)
  {
    if s.tanks[v].health <= SHELL_DAMAGE {
      UndoKill(s, t, v, r);
    } else {
      UndoWound(s, t, v, r);
    }
  }

  lemma UndoShot(s: Board, t: Board, id: nat, v: u8, r: set<int>)
    requires s.Consistent() && s.Slotted() && id < |s.tanks| && s.tanks[id].health > 0 && s.tanks[id].loaded
    requires v < |s.tanks| && s.tanks[v].health > 0 && v != id
    requires Retraces(Damage(SetLoaded(s, id, false), v), t, r)
    ensures CanRepair(t, s.tanks[v].pos)
    ensures var mended := RepairTank(t, s.tanks[v].pos);
            id < |mended.tanks| && Retraces(s, SetLoaded(mended, id, true), RepairedAfter(s, v) + r)
  {
    var before := s.tanks[id];
    var s1 := SetLoaded(s, id, false);
    assert s.GoodTank(id);
    RetouchKeeps(s, id, before.(loaded := false));
    assert RepairedAfter(s1, v) == RepairedAfter(s, v) by {
      assert forall i :: 0 <= i < |s.tanks| ==> s1.tanks[i].pos == s.tanks[i].pos;
    }
    UndoDamage(s1, t, v, r);
    UndoRetouch(s, RepairTank(t, s.tanks[v].pos), id, before, before.(loaded := false), RepairedAfter(s, v) + r);
  }

  lemma UndoMiss(s: Board, t: Board, c: CommandHead, r: set<int>)
    requires s.Consistent() && s.Slotted() && c.kind == Fire && ReplayApply(s, c).Applied?
    requires Retraces(ReplayApply(s, c).board, t, r) && CanShoot(s, c.tankId) && Victim(s, c.tankId).None?
    ensures Revertible(t, ReplayApply(s, c).status) && Revert(t, c, ReplayApply(s, c).status).Applied?
    ensures Retraces(s, Revert(t, c, ReplayApply(s, c).status).board, r)
  {
    assert s.GoodTank(c.tankId);
    UndoTouched(s, t, c, Flag(false), s.tanks[c.tankId].(loaded := false), r);
  }

  /** Reverting a shot that hit one tank repairs that position and reloads. */
  lemma RevertHit(t: Board, c: CommandHead, pos: Vec2)
    requires Revertible(t, MoveStatus(true, [pos])) && CanRepair(t, pos) && c.kind == Fire && MayCommand(t, c)
    requires !t.tanks[c.tankId].loaded
    ensures |RepairTank(t, pos).tanks| == |t.tanks|
    ensures Revert(t, c, MoveStatus(true, [pos])) ==
            Applied(SetLoaded(RepairTank(t, pos), c.tankId, true), MoveStatus(true, [pos]))
  {
    assert forall i :: 0 <= i < |t.tanks| ==> t.GoodTank(i) ==> t.tanks[i].id == i;
    var hits := [pos];
    assert hits[1..] == [];
    assert RepairHits(t, hits) == RepairTank(t, hits[0]);
  }

  lemma UndoHit(s: Board, t: Board, c: CommandHead, v: u8, r: set<int>)
    requires s.Consistent() && s.Slotted() && c.kind == Fire && MayCommand(s, c) && s.tanks[c.tankId].loaded
    requires CanShoot(s, c.tankId) && Victim(s, c.tankId) == Some(v)
    requires var st := MoveStatus(true, [s.tanks[v].pos]);
             Revertible(t, st) && Retraces(Damage(SetLoaded(s, c.tankId, false), v), t, r)
    ensures var o := Revert(t, c, MoveStatus(true, [s.tanks[v].pos]));
            o.Applied? && Retraces(s, o.board, RepairedBy(s, c) + r)
  {
    VictimIsAnother(s, c.tankId);
    UndoShot(s, t, c.tankId, v, r);
    ShooterAfterHit(s, t, c, v, r);
    RevertHit(t, c, s.tanks[v].pos);
  }

  /** The shooter is still there to be commanded back, unloaded. */
  lemma ShooterAfterHit(s: Board, t: Board, c: CommandHead, v: u8, r: set<int>)
    requires s.Sized() && MayCommand(s, c) && v < |s.tanks| && s.InBounds(s.tanks[v].pos) && v != c.tankId
    requires TanksRetrace(Damage(SetLoaded(s, c.tankId, false), v), t, r)
    ensures MayCommand(t, c) && !t.tanks[c.tankId].loaded
  {
  }

  lemma UndoFire(s: Board, t: Board, c: CommandHead, r: set<int>)
    requires s.Consistent() && s.Slotted() && c.kind == Fire && ReplayApply(s, c).Applied?
    requires Retraces(ReplayApply(s, c).board, t, r)
    ensures Revertible(t, ReplayApply(s, c).status) && Revert(t, c, ReplayApply(s, c).status).Applied?
    ensures Retraces(s, Revert(t, c, ReplayApply(s, c).status).board, RepairedBy(s, c) + r)
  {
    CommandedIsPlaced(s, c);
    match Victim(s, c.tankId)
    case None =>
      assert RepairedBy(s, c) + r == r;
      UndoMiss(s, t, c, r);
    case Some(v) =>
      CommandKeepsBoard(s, c);
      RetracesIsRevertible(ReplayApply(s, c).board, t, r, ReplayApply(s, c).status);
      UndoHit(s, t, c, v, r);
  }

  lemma UndoMoveCommand(s: Board, t: Board, c: CommandHead, r: set<int>)
    requires s.Consistent() && s.Slotted() && c.kind == Move && ReplayApply(s, c).Applied?
    requires Retraces(ReplayApply(s, c).board, t, r)
    ensures Revertible(t, ReplayApply(s, c).status) && Revert(t, c, ReplayApply(s, c).status).Applied?
    ensures Retraces(s, Revert(t, c, ReplayApply(s, c).status).board, r)
  {
    CommandedIsPlaced(s, c);
    assert s.GoodTank(c.tankId);
    CommandKeepsBoard(s, c);
    RetracesIsRevertible(ReplayApply(s, c).board, t, r, ReplayApply(s, c).status);
    if MoveTarget(s, c.tankId, c.first != 0).Some? {
      UndoMove(s, t, c.tankId, c.first != 0, r);
    }
  }

  lemma TurnBack(d: u8, dir: u8)
    requires d < 8
    ensures Turn(d, dir) < 8 && Turn(Turn(d, dir), if dir == 0 then 1 else 0) == d
  {
  }

  lemma UndoTurnCommand(s: Board, t: Board, c: CommandHead, r: set<int>)
    requires s.Consistent() && s.Slotted() && (c.kind == RotateTank || c.kind == RotateBarrel)
    requires ReplayApply(s, c).Applied? && Retraces(ReplayApply(s, c).board, t, r)
    ensures Revertible(t, ReplayApply(s, c).status) && Revert(t, c, ReplayApply(s, c).status).Applied?
    ensures Retraces(s, Revert(t, c, ReplayApply(s, c).status).board, r)
  {
    var st, tank := ReplayApply(s, c).status, s.tanks[c.tankId];
    assert s.GoodTank(c.tankId);
    TurnBack(tank.direction, c.first);
    TurnBack(tank.barrel, c.first);
    if c.kind == RotateTank {
      UndoTouched(s, t, c, st, tank.(direction := Turn(tank.direction, c.first)), r);
    } else {
      UndoTouched(s, t, c, st, tank.(barrel := Turn(tank.barrel, c.first)), r);
    }
  }

  lemma UndoLoadCommand(s: Board, t: Board, c: CommandHead, r: set<int>)
    requires s.Consistent() && s.Slotted() && c.kind == Load
    requires ReplayApply(s, c).Applied? && Retraces(ReplayApply(s, c).board, t, r)
    ensures Revertible(t, ReplayApply(s, c).status) && Revert(t, c, ReplayApply(s, c).status).Applied?
    ensures Retraces(s, Revert(t, c, ReplayApply(s, c).status).board, r)
  {
    assert s.GoodTank(c.tankId);
    UndoTouched(s, t, c, ReplayApply(s, c).status, s.tanks[c.tankId].(loaded := true), r);
  }

  lemma UndoPlaceCommand(s: Board, t: Board, c: CommandHead, r: set<int>)
    requires s.Consistent() && s.Slotted() && c.kind == Place && LegalPlacement(s, c) && ReplayApply(s, c).Applied?
    requires Retraces(ReplayApply(s, c).board, t, r)
    ensures Revertible(t, ReplayApply(s, c).status) && Revert(t, c, ReplayApply(s, c).status).Applied?
    ensures Retraces(s, Revert(t, c, ReplayApply(s, c).status).board, r)
  {
    ReplayKeepsBoard(s, c);
    RetracesIsRevertible(ReplayApply(s, c).board, t, r, ReplayApply(s, c).status);
    assert s.GoodPlayer(c.sender);
    UndoPlace(s, t, Target(c), c.sender, c.tankId, r);
  }

  /** One backward step retraces one forward step, from any board the later steps may have left. */
  lemma UndoStep(s: Board, t: Board, c: CommandHead, r: set<int>)
    requires s.Consistent() && s.Slotted() && LegalPlacement(s, c) && ReplayApply(s, c).Applied?
    requires Retraces(ReplayApply(s, c).board, t, r)
    ensures Revertible(t, ReplayApply(s, c).status) && Revert(t, c, ReplayApply(s, c).status).Applied?
    ensures Retraces(s, Revert(t, c, ReplayApply(s, c).status).board, RepairedBy(s, c) + r)
  {
    if c.kind == Fire {
      UndoFire(s, t, c, r);
    } else {
      assert RepairedBy(s, c) + r == r;
      if c.kind == Move {
        UndoMoveCommand(s, t, c, r);
      } else if c.kind == Place {
        UndoPlaceCommand(s, t, c, r);
      } else if c.kind == Load {
        UndoLoadCommand(s, t, c, r);
      } else {
        UndoTurnCommand(s, t, c, r);
      }
    }
  }

  // ---------------------------------------------------------------- undoing a run

  /** After any recorded history and as many backward steps, no step refuses and the board is the
      starting one up to the tanks that were repaired on the way. */
  lemma {:induction false} UndoRun(b: Board, cmds: seq<CommandHead>)
    requires b.Consistent() && b.Slotted() && Recorded(b, cmds)
    ensures var r := Forward(b, cmds);
            var back := Backward(r.board, cmds, r.statuses);
            back.Some? && Retraces(b, back.value, RepairedIn(b, cmds))
    decreases |cmds|
  {
    if cmds != [] {
      ReplayKeepsBoard(b, cmds[0]);
      var o := ReplayApply(b, cmds[0]);
      UndoRun(o.board, cmds[1..]);
      var r := Forward(b, cmds);
      assert r.statuses[1..] == Forward(o.board, cmds[1..]).statuses;
      UndoStep(b, Backward(r.board, cmds[1..], r.statuses[1..]).value, cmds[0],
               RepairedIn(o.board, cmds[1..]));
    }
  }

  /** Every listed tank that is on the board is at full health. */
  predicate AllWhole(b: Board, ids: set<int>) {
    forall i :: i in ids && 0 <= i < |b.tanks| && b.tanks[i].owner != NOTHING ==> b.tanks[i].health == INITIAL_HEALTH
  }

  /** k steps forward and k steps back restore the whole board exactly when every tank that is on
      the board at the start and gets repaired on the way back was at full health at the start.
      (The repaired ones are the tanks hit, and the dead ones under a tank that is killed.) */
  lemma UndoRestoresIff(b: Board, cmds: seq<CommandHead>)
    requires b.Consistent() && b.Slotted() && Recorded(b, cmds)
    ensures var r := Forward(b, cmds);
            var back := Backward(r.board, cmds, r.statuses);
            back.Some? && (back.value == b <==> AllWhole(b, RepairedIn(b, cmds)))
  {
    UndoRun(b, cmds);
    var r := Forward(b, cmds);
    var t := Backward(r.board, cmds, r.statuses).value;
    if AllWhole(b, RepairedIn(b, cmds)) {
      forall i | 0 <= i < |b.tanks|
        ensures t.tanks[i] == b.tanks[i]
      {
      }
      assert t.tanks == b.tanks;
      assert t.cells == b.cells;
    }
  }
}
