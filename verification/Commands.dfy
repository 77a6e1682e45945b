/** The two interpreters of a player's command: the server's apply_command and the replay's
    step_forward_turn.  They share their checks but fire and place differently. */
module Commands {
  import opened Basics
  import opened Boards

  datatype CommandType = Move | RotateTank | RotateBarrel | Fire | Place | Load | NoOp

  /** A command without its sequence number.  For Place, tankId is the facing direction. */
  datatype CommandHead = CommandHead(sender: u8, kind: CommandType, tankId: u8, first: u8, second: u8)

  datatype MoveStatus = MoveStatus(success: bool, hits: seq<Vec2>)

  /** What a command does.  OutOfRange marks a placement that indexes past the end of the player
      vector or the player's tank list, which is undefined behaviour in the source. */
  datatype Outcome = Rejected | Applied(board: Board, status: MoveStatus) | OutOfRange

  /** Boards on which every command is well defined. */
  predicate Ready(b: Board) {
    b.Named() && b.Slotted()
  }

  function Flag(success: bool): MoveStatus {
    MoveStatus(success, [])
  }

  /** The tank exists, is alive and belongs to the sender. */
  predicate MayCommand(b: Board, c: CommandHead) {
    c.tankId < |b.tanks| && b.tanks[c.tankId].health > 0 && b.tanks[c.tankId].owner == c.sender
  }

  /** A commanded tank has been placed, so its position and headings are in range. */
  lemma CommandedIsPlaced(b: Board, c: CommandHead)
    requires Ready(b) && MayCommand(b, c)
    ensures Movable(b, c.tankId) && CanShoot(b, c.tankId) && c.sender < |b.players|
  {
    assert b.GoodTank(c.tankId);
  }

  function Target(c: CommandHead): Vec2 {
    Vec2(c.first, c.second)
  }

  function Placement(b: Board, c: CommandHead): Outcome
    requires Ready(b) && b.InBounds(Target(c))
  {
    if c.sender < |b.players| && b.players[c.sender].placed < b.numTanks then
      assert b.GoodPlayer(c.sender);
      Applied(PlaceTank(b, Target(c), c.sender, c.tankId), Flag(true))
    else OutOfRange
  }

  /** The server.  Its op_status for Load and Place stays false even though they take effect. */
  function ServerApply(b: Board, setup: bool, c: CommandHead): Outcome
    requires Ready(b)
  {
    if c.kind == Place then
      if !setup || !b.InBounds(Target(c)) || !CheckPlacement(b, Target(c), c.sender) || c.tankId >= 8 then Rejected
      else
        var o := Placement(b, c);
        if o.Applied? then o.(status := Flag(false)) else o
    else if setup || !MayCommand(b, c) then Rejected
    else
      CommandedIsPlaced(b, c);
      match c.kind
      case Move => var r := MoveTank(b, c.tankId, c.first != 0); Applied(r.0, Flag(r.1))
      case RotateTank => Applied(TurnTank(b, c.tankId, c.first), Flag(true))
      case RotateBarrel => Applied(TurnBarrel(b, c.tankId, c.first), Flag(true))
      case Fire =>
        if !b.tanks[c.tankId].loaded then Rejected
        else var r := FireTank(b, c.tankId); Applied(r.0, Flag(r.1))
      case Load =>
        if b.tanks[c.tankId].loaded then Rejected
        else Applied(SetLoaded(b, c.tankId, true), Flag(false))
      case _ => Rejected
  }

  /** The replay.  It trusts the recording: no phase check and no placement check. */
  function ReplayApply(b: Board, c: CommandHead): Outcome
    requires Ready(b)
  {
    if c.kind == Place then
      if !b.InBounds(Target(c)) || c.tankId >= 8 then Rejected else Placement(b, c)
    else if !MayCommand(b, c) then Rejected
    else
      CommandedIsPlaced(b, c);
      match c.kind
      case Move => var r := MoveTank(b, c.tankId, c.first != 0); Applied(r.0, Flag(r.1))
      case RotateTank => Applied(TurnTank(b, c.tankId, c.first), Flag(true))
      case RotateBarrel => Applied(TurnBarrel(b, c.tankId, c.first), Flag(true))
      case Fire =>
        if !b.tanks[c.tankId].loaded then Rejected
        else
          var r := ReplayFireTank(b, c.tankId);
          Applied(r.0, if r.1.Some? then MoveStatus(true, [r.1.value]) else Flag(false))
      case Load =>
        if b.tanks[c.tankId].loaded then Rejected
        else Applied(SetLoaded(b, c.tankId, true), Flag(true))
      case _ => Rejected
  }

  /** A recorded placement is one check_placement let through, up to the mask. */
  predicate LegalPlacement(b: Board, c: CommandHead)
    requires b.Sized()
  {
    c.kind == Place && b.InBounds(Target(c)) ==>
      b.At(Target(c)).occupant == NOTHING && b.At(Target(c)).kind != Terrain
  }

  /** The first tank on the line of fire belongs to the shooter. */
  predicate FriendlyFirst(b: Board, c: CommandHead)
    requires Ready(b)
  {
    && c.kind == Fire && MayCommand(b, c)
    && (CommandedIsPlaced(b, c);
        var v := Victim(b, c.tankId);
        v.Some? && b.tanks[v.value].owner == c.sender)
  }

  /** d' is the heading next to d, on the clockwise side or on the other one (rows grow southwards). */
  predicate EighthTurn(d: u8, d': u8, clockwise: bool) {
    && d < 8 && d' < 8 && Dx(d) * Dx(d') + Dy(d) * Dy(d') == 1
    && Dx(d) * Dy(d') - Dy(d) * Dx(d') == if clockwise then 1 else -1
  }

  lemma TurnIsEighth(d: u8, dir: u8)
    requires d < 8
    ensures EighthTurn(d, Turn(d, dir), dir == 0)
  {
  }

  // ---------------------------------------------------------------- what every operation keeps

  /** Everything but tanks, occupants and placement lists is fixed for the life of a match. */
  predicate SameMap(b: Board, b': Board) {
    && b'.width == b.width && b'.height == b.height && b'.numTanks == b.numTanks && b'.mask == b.mask
    && |b'.cells| == |b.cells| && |b'.tanks| == |b.tanks| && |b'.players| == |b.players|
    && forall c :: 0 <= c < |b.cells| ==>
         b'.cells[c].kind == b.cells[c].kind && b'.cells[c].visible == b.cells[c].visible
  }

  /** The slices survive any change of cells and any change of one placed tank that leaves it
      placed and in range. */
  lemma SlotsSurvive(b: Board, b': Board, id: nat, t: Tank)
    requires b.Slotted() && b'.Sized() && b'.players == b.players && b'.width == b.width && b'.height == b.height
    requires b'.numTanks == b.numTanks && id < |b.tanks| && b'.tanks == b.tanks[id := t]
    requires t.owner == b.tanks[id].owner != NOTHING && t.id == id && b.InBounds(t.pos) && t.health <= INITIAL_HEALTH
    requires t.direction < 8 && t.barrel < 8 && !t.aimFocused
    ensures b'.Slotted()
  {
    forall i | 0 <= i < |b.tanks|
      ensures b'.GoodTank(i)
    {
      assert b.GoodTank(i);
    }
    forall p | 0 <= p < |b.players|
      ensures b'.GoodPlayer(p)
    {
      assert b.GoodPlayer(p);
    }
  }

  lemma RelocateKeepsCells(b: Board, id: nat, to: Vec2)
    requires b.Named() && Movable(b, id) && b.InBounds(to) && CanEnter(b, b.tanks[id].pos, to) && b.tanks[id].health > 0
    ensures Relocate(b, id, to).Named()
    ensures b.Anchored() ==> Relocate(b, id, to).Anchored()
  {
    var b' := Relocate(b, id, to);
    var from := b.tanks[id].pos;
    assert b'.tanks == b.tanks[id := b.tanks[id].(pos := to)];
    assert b'.cells[b.Idx(to)].occupant == id;
    if b.Anchored() {
      assert b.At(from).occupant == id;
      forall i | 0 <= i < |b'.tanks| && b'.tanks[i].health > 0
        ensures && b'.InBounds(b'.tanks[i].pos) && b'.At(b'.tanks[i].pos).occupant == i
                && b'.At(b'.tanks[i].pos).kind != Terrain
      {
        assert b.At(b.tanks[i].pos).occupant == i;
      }
    }
  }

  lemma MoveKeeps(b: Board, id: nat, reverse: bool)
    requires Ready(b) && id < |b.tanks| && b.tanks[id].health > 0
    ensures Movable(b, id)
    ensures var b' := MoveTank(b, id, reverse).0;
            Ready(b') && (b.Anchored() ==> b'.Anchored()) && SameMap(b, b') && b'.players == b.players
  {
    assert b.GoodTank(id);
    var to := MoveTarget(b, id, reverse);
    if to.Some? {
      SlotsSurvive(b, Relocate(b, id, to.value), id, b.tanks[id].(pos := to.value));
      RelocateKeepsCells(b, id, to.value);
      assert MoveTank(b, id, reverse).0 == Relocate(b, id, to.value);
    }
  }

  /** Turning, loading or unloading a tank touches nothing else. */
  lemma RetouchKeeps(b: Board, id: nat, t: Tank)
    requires Ready(b) && id < |b.tanks| && b.tanks[id].health > 0
    requires t == b.tanks[id].(direction := t.direction, barrel := t.barrel, loaded := t.loaded)
    requires t.direction < 8 && t.barrel < 8
    ensures var b' := b.SetTank(id, t);
            Ready(b') && (b.Anchored() ==> b'.Anchored()) && SameMap(b, b') && b'.players == b.players
  {
    var b' := b.SetTank(id, t);
    assert b.GoodTank(id);
    SlotsSurvive(b, b', id, t);
    assert forall c :: 0 <= c < |b.cells| ==> b'.cells[c] == b.cells[c];
  }

  lemma DamageKeepsCells(b: Board, v: u8)
    requires b.Named() && v < |b.tanks| && b.tanks[v].health > 0 && b.InBounds(b.tanks[v].pos)
    requires b.At(b.tanks[v].pos).occupant == v
    ensures Damage(b, v).Named() && (b.Anchored() ==> Damage(b, v).Anchored())
  {
    if b.Anchored() {
      DamageKeepsAnchors(b, v);
    }
  }

  lemma DamageKeepsAnchors(b: Board, v: u8)
    requires b.Anchored() && v < |b.tanks| && b.tanks[v].health > 0
    ensures Damage(b, v).Anchored()
  {
    var b' := Damage(b, v);
    forall i | 0 <= i < |b'.tanks| && b'.tanks[i].health > 0
      ensures b'.At(b'.tanks[i].pos) == b.At(b.tanks[i].pos)
    {
      assert b.At(b.tanks[i].pos).occupant == i;
    }
  }

  lemma DamageKeeps(b: Board, v: u8)
    requires Ready(b) && v < |b.tanks| && b.tanks[v].health > 0 && b.InBounds(b.tanks[v].pos)
    requires b.At(b.tanks[v].pos).occupant == v
    ensures var b' := Damage(b, v);
            Ready(b') && (b.Anchored() ==> b'.Anchored()) && SameMap(b, b') && b'.players == b.players
  {
    assert b.GoodTank(v);
    SlotsSurvive(b, Damage(b, v), v, Damage(b, v).tanks[v]);
    DamageKeepsCells(b, v);
  }

  lemma PlaceKeeps(b: Board, pos: Vec2, player: nat, direction: u8)
    requires Ready(b) && CanPlace(b, pos, player) && direction < 8
    requires b.At(pos).occupant == NOTHING && b.At(pos).kind != Terrain
    ensures var b' := PlaceTank(b, pos, player, direction);
            Ready(b') && (b.Anchored() ==> b'.Anchored()) && SameMap(b, b')
  {
    var b' := PlaceTank(b, pos, player, direction);
    var placed := b.players[player].placed;
    var id := Slot(b.numTanks, player, placed);
    SlotFits(b, player, placed);
    assert b.GoodPlayer(player);
    assert b.GoodTank(id);
    forall i | 0 <= i < |b.tanks|
      ensures b'.GoodTank(i)
    {
      assert b.GoodTank(i);
    }
    forall p | 0 <= p < |b.players|
      ensures b'.GoodPlayer(p)
    {
      assert b.GoodPlayer(p);
      forall k | 0 <= k < b.numTanks && Slot(b.numTanks, p, k) == id
        ensures p == player && k == placed
      {
        SlotInjective(b.numTanks, p, k, player, placed);
      }
    }
    if b.Anchored() {
      forall i | 0 <= i < |b'.tanks| && b'.tanks[i].health > 0
        ensures b'.At(b'.tanks[i].pos).occupant == i && b'.At(b'.tanks[i].pos).kind != Terrain
      {
        if i != id {
          assert b.At(b.tanks[i].pos).occupant == i;
        }
      }
    }
  }

  lemma CommandKeepsBoard(b: Board, c: CommandHead)
    requires Ready(b) && c.kind != Place && ReplayApply(b, c).Applied?
    ensures var b' := ReplayApply(b, c).board;
            Ready(b') && (b.Anchored() ==> b'.Anchored()) && SameMap(b, b') && b'.players == b.players
  {
    var t := b.tanks[c.tankId];
    CommandedIsPlaced(b, c);
    assert b.GoodTank(c.tankId);
    match c.kind
    case Move => MoveKeeps(b, c.tankId, c.first != 0);
    case RotateTank => RetouchKeeps(b, c.tankId, t.(direction := Turn(t.direction, c.first)));
    case RotateBarrel => RetouchKeeps(b, c.tankId, t.(barrel := Turn(t.barrel, c.first)));
    case Load => RetouchKeeps(b, c.tankId, t.(loaded := true));
    case Fire =>
      RetouchKeeps(b, c.tankId, t.(loaded := false));
      var v := Victim(b, c.tankId);
      if v.Some? {
        DamageKeeps(SetLoaded(b, c.tankId, false), v.value);
      }
  }

  lemma PlacementKeepsBoard(b: Board, c: CommandHead)
    requires Ready(b) && b.InBounds(Target(c)) && c.tankId < 8 && Placement(b, c).Applied?
    requires b.At(Target(c)).occupant == NOTHING && b.At(Target(c)).kind != Terrain
    ensures var b' := Placement(b, c).board;
            Ready(b') && (b.Anchored() ==> b'.Anchored()) && SameMap(b, b')
  {
    assert b.GoodPlayer(c.sender);
    PlaceKeeps(b, Target(c), c.sender, c.tankId);
  }

  lemma ReplayKeepsBoard(b: Board, c: CommandHead)
    requires Ready(b) && LegalPlacement(b, c) && ReplayApply(b, c).Applied?
    ensures var b' := ReplayApply(b, c).board;
            Ready(b') && (b.Anchored() ==> b'.Anchored()) && SameMap(b, b')
  {
    if c.kind == Place {
      PlacementKeepsBoard(b, c);
    } else {
      CommandKeepsBoard(b, c);
    }
  }

  /** Every accepted command of the server keeps both halves of board consistency, the tank-ID
      slices and the map. */
  lemma ServerKeepsBoard(b: Board, setup: bool, c: CommandHead)
    requires Ready(b) && ServerApply(b, setup, c).Applied?
    ensures var b' := ServerApply(b, setup, c).board;
            Ready(b') && (b.Anchored() ==> b'.Anchored()) && SameMap(b, b')
  {
    if c.kind == Place {
      PlacementKeepsBoard(b, c);
    } else {
      CommandKeepsBoard(b, c);
      if c.kind == Fire {
        CommandedIsPlaced(b, c);
        assert b.GoodTank(c.tankId);
        RetouchKeeps(b, c.tankId, b.tanks[c.tankId].(loaded := false));
      }
    }
  }

  // ---------------------------------------------------------------- fidelity of one step

  /** A command the server records is never refused by the replay, and the replay reaches the
      server's board exactly when the shot, if it is one, does not meet a friendly tank first. */
  lemma StepFidelity(b: Board, setup: bool, c: CommandHead)
    requires Ready(b) && ServerApply(b, setup, c).Applied?
    ensures LegalPlacement(b, c) && ReplayApply(b, c).Applied?
    ensures ReplayApply(b, c).board == ServerApply(b, setup, c).board <==> !FriendlyFirst(b, c)
  {
    if FriendlyFirst(b, c) {
      CommandedIsPlaced(b, c);
      var v := Victim(b, c.tankId).value;
      var r, s := ReplayApply(b, c).board, ServerApply(b, setup, c).board;
      assert r.tanks[v].health == b.tanks[v].health - 1;
      assert s.tanks[v].health == b.tanks[v].health;
    }
  }

  /** The success flags agree too, for every kind but Load and Place: those the server reports
      as unsuccessful and the replay as successful. */
  lemma FlagFidelity(b: Board, setup: bool, c: CommandHead)
    requires Ready(b) && ServerApply(b, setup, c).Applied?
    ensures ReplayApply(b, c).Applied?
    ensures ReplayApply(b, c).status.success == ServerApply(b, setup, c).status.success
            <==> c.kind != Load && c.kind != Place && !FriendlyFirst(b, c)
  {
    if c.kind == Fire {
      CommandedIsPlaced(b, c);
    }
  }
}
