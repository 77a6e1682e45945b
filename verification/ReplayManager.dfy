/** The replay manager as the source keeps it: a game instance, a recorded history, the number of moves
    applied and the status each of them left. */
module ReplayManagers {
  import opened Basics
  import opened Boards
  import opened Commands
  import opened GameInstances
  import opened Replay

  /** Where a replay stands. */
  datatype Position = Position(board: Board, applied: nat, statuses: seq<MoveStatus>)

  ghost predicate OnTrack(moves: seq<CommandHead>, s: Position) {
    s.applied <= |moves| == |s.statuses|
  }

  /** One step forward; nothing happens at the end of the history or when the move is refused. */
  ghost function Next(moves: seq<CommandHead>, s: Position): (t: Position)
    requires OnTrack(moves, s)
    ensures OnTrack(moves, t)
  {
    if s.applied == |moves| || !Ready(s.board) then s
    else match ReplayApply(s.board, moves[s.applied])
         case Applied(b, st) => Position(b, s.applied + 1, s.statuses[s.applied := st])
         case _ => s
  }

  /** One step backward; nothing happens at the start of the history or when the move is refused. */
  ghost function Previous(moves: seq<CommandHead>, s: Position): (t: Position)
    requires OnTrack(moves, s)
    ensures OnTrack(moves, t)
  {
    if s.applied == 0 || !Revertible(s.board, s.statuses[s.applied - 1]) then s
    else match Revert(s.board, moves[s.applied - 1], s.statuses[s.applied - 1])
         case Applied(b, _) => s.(board := b, applied := s.applied - 1)
         case _ => s
  }

  ghost function Ahead(moves: seq<CommandHead>, s: Position, k: nat): (t: Position)
    requires OnTrack(moves, s)
    ensures OnTrack(moves, t)
    decreases k
  {
    if k == 0 then s else Ahead(moves, Next(moves, s), k - 1)
  }

  ghost function Back(moves: seq<CommandHead>, s: Position, k: nat): (t: Position)
    requires OnTrack(moves, s)
    ensures OnTrack(moves, t)
  {
    if k == 0 then s else Previous(moves, Back(moves, s, k - 1))
  }

  /** The statuses of a run written over those from move a on. */
  function Overwritten(statuses: seq<MoveStatus>, a: nat, later: seq<MoveStatus>): seq<MoveStatus>
    requires a + |later| <= |statuses|
  {
    statuses[..a] + later + statuses[a + |later|..]
  }

  lemma OverwriteNext(statuses: seq<MoveStatus>, a: nat, st: MoveStatus, later: seq<MoveStatus>)
    requires a + 1 + |later| <= |statuses|
    ensures Overwritten(statuses[a := st], a + 1, later) == Overwritten(statuses, a, [st] + later)
  {
  }

  lemma NextApplies(moves: seq<CommandHead>, s: Position)
    requires OnTrack(moves, s) && s.applied < |moves|
    requires Ready(s.board) && ReplayApply(s.board, moves[s.applied]).Applied?
    ensures var o := ReplayApply(s.board, moves[s.applied]);
            Next(moves, s) == Position(o.board, s.applied + 1, s.statuses[s.applied := o.status])
  {
  }

  /** The next moves of the history are these. */
  predicate UpNext(moves: seq<CommandHead>, s: Position, cmds: seq<CommandHead>) {
    s.applied + |cmds| <= |moves| && moves[s.applied..s.applied + |cmds|] == cmds
  }

  lemma UpNextAfter(moves: seq<CommandHead>, s: Position, t: Position, cmds: seq<CommandHead>)
    requires UpNext(moves, s, cmds) && cmds != [] && t.applied == s.applied + 1
    ensures moves[s.applied] == cmds[0] && UpNext(moves, t, cmds[1..])
  {
    assert moves[s.applied..s.applied + |cmds|][0] == moves[s.applied];
    assert moves[s.applied..s.applied + |cmds|][1..] == moves[s.applied + 1..s.applied + |cmds|];
  }

  /** One step through recorded moves, on both sides. */
  lemma OneAhead(moves: seq<CommandHead>, s: Position, cmds: seq<CommandHead>) returns (t: Position)
    requires OnTrack(moves, s) && UpNext(moves, s, cmds) && cmds != [] && Ready(s.board) && Recorded(s.board, cmds)
    ensures OnTrack(moves, t) && UpNext(moves, t, cmds[1..]) && Ready(t.board) && Recorded(t.board, cmds[1..])
    ensures t == Next(moves, s) && t.applied == s.applied + 1
    ensures t.statuses == s.statuses[s.applied := t.statuses[s.applied]]
    ensures var r := Forward(t.board, cmds[1..]);
            Forward(s.board, cmds) == Run(r.board, [t.statuses[s.applied]] + r.statuses)
  {
    ReplayKeepsBoard(s.board, cmds[0]);
    var o := ReplayApply(s.board, cmds[0]);
    t := Position(o.board, s.applied + 1, s.statuses[s.applied := o.status]);
    UpNextAfter(moves, s, t, cmds);
    NextApplies(moves, s);
  }

  /** Forward over moves, as it shows in a position. */
  ghost predicate Shows(s: Position, r: Run, n: nat, t: Position) {
    && t.board == r.board && t.applied == s.applied + n && s.applied + |r.statuses| <= |s.statuses|
    && t.statuses == Overwritten(s.statuses, s.applied, r.statuses)
  }

  lemma ShowsNext(s: Position, t: Position, r: Run, n: nat, end: Position)
    requires s.applied < |s.statuses| == |t.statuses| && t.applied == s.applied + 1
    requires t.statuses == s.statuses[s.applied := t.statuses[s.applied]] && Shows(t, r, n, end)
    ensures Shows(s, Run(r.board, [t.statuses[s.applied]] + r.statuses), n + 1, end)
  {
    OverwriteNext(s.statuses, s.applied, t.statuses[s.applied], r.statuses);
  }

  lemma {:induction false} AheadIsForward(moves: seq<CommandHead>, s: Position, cmds: seq<CommandHead>)
    requires OnTrack(moves, s) && UpNext(moves, s, cmds) && Ready(s.board) && Recorded(s.board, cmds)
    ensures Shows(s, Forward(s.board, cmds), |cmds|, Ahead(moves, s, |cmds|))
    decreases |cmds|
  {
    if cmds == [] {
      assert Overwritten(s.statuses, s.applied, []) == s.statuses;
    } else {
      var t := OneAhead(moves, s, cmds);
      AheadIsForward(moves, t, cmds[1..]);
      ShowsNext(s, t, Forward(t.board, cmds[1..]), |cmds| - 1, Ahead(moves, t, |cmds| - 1));
    }
  }

  /** The last moves made were these, with these statuses. */
  predicate JustMade(moves: seq<CommandHead>, s: Position, cmds: seq<CommandHead>, statuses: seq<MoveStatus>) {
    && |cmds| == |statuses| <= s.applied <= |moves| == |s.statuses|
    && moves[s.applied - |cmds|..s.applied] == cmds
    && s.statuses[s.applied - |cmds|..s.applied] == statuses
  }

  lemma MadeAt(moves: seq<CommandHead>, s: Position, cmds: seq<CommandHead>, statuses: seq<MoveStatus>, j: nat)
    requires JustMade(moves, s, cmds, statuses) && j < |cmds|
    ensures moves[s.applied - |cmds| + j] == cmds[j] && s.statuses[s.applied - |cmds| + j] == statuses[j]
  {
    var a := s.applied - |cmds|;
    assert moves[a..s.applied][j] == moves[a + j] && s.statuses[a..s.applied][j] == s.statuses[a + j];
  }

  ghost predicate Reverts(b: Board, c: CommandHead, st: MoveStatus, b': Board) {
    Revertible(b, st) && Revert(b, c, st).Applied? && Revert(b, c, st).board == b'
  }

  lemma PreviousReverts(moves: seq<CommandHead>, s: Position, b': Board)
    requires OnTrack(moves, s) && s.applied > 0
    requires Reverts(s.board, moves[s.applied - 1], s.statuses[s.applied - 1], b')
    ensures Previous(moves, s) == Position(b', s.applied - 1, s.statuses)
  {
  }

  /** k steps back from s lead here. */
  ghost predicate LeadsBack(moves: seq<CommandHead>, s: Position, k: nat, b: Board) {
    OnTrack(moves, s) && k <= s.applied && Back(moves, s, k) == Position(b, s.applied - k, s.statuses)
  }

  lemma LeadsFurtherBack(moves: seq<CommandHead>, s: Position, k: nat, late: Board, early: Board)
    requires LeadsBack(moves, s, k, late) && k < s.applied
    requires Reverts(late, moves[s.applied - k - 1], s.statuses[s.applied - k - 1], early)
    ensures LeadsBack(moves, s, k + 1, early)
  {
    PreviousReverts(moves, Back(moves, s, k), early);
  }

  /** The boards that lie on the way back, from the latest to the earliest. */
  ghost predicate Trail(boards: seq<Board>, cmds: seq<CommandHead>, statuses: seq<MoveStatus>) {
    |boards| == |cmds| + 1 && |statuses| == |cmds| && forall k :: 0 <= k < |cmds| ==> OnTrail(boards, cmds, statuses, k)
  }

  ghost predicate OnTrail(boards: seq<Board>, cmds: seq<CommandHead>, statuses: seq<MoveStatus>, k: nat)
    requires |boards| == |cmds| + 1 == |statuses| + 1 && k < |cmds|
  {
    Reverts(boards[k], cmds[|cmds| - 1 - k], statuses[|cmds| - 1 - k], boards[k + 1])
  }

  /** A trail that goes one board further back. */
  lemma TrailOn(boards: seq<Board>, cmds: seq<CommandHead>, statuses: seq<MoveStatus>, early: Board)
    requires |cmds| == |statuses| > 0 && Trail(boards, cmds[1..], statuses[1..])
    requires Reverts(boards[|boards| - 1], cmds[0], statuses[0], early)
    ensures Trail(boards + [early], cmds, statuses)
  {
    forall k | 0 <= k < |cmds|
      ensures OnTrail(boards + [early], cmds, statuses, k)
    {
      if k < |cmds| - 1 {
        assert OnTrail(boards, cmds[1..], statuses[1..], k);
      }
    }
  }

  lemma {:induction false} BackwardTrail(b: Board, cmds: seq<CommandHead>, statuses: seq<MoveStatus>, early: Board)
    returns (boards: seq<Board>)
    requires |cmds| == |statuses| && Backward(b, cmds, statuses) == Some(early)
    ensures Trail(boards, cmds, statuses) && boards[0] == b && boards[|cmds|] == early
    decreases |cmds|
  {
    if cmds == [] {
      boards := [b];
    } else {
      var late := Backward(b, cmds[1..], statuses[1..]).value;
      boards := BackwardTrail(b, cmds[1..], statuses[1..], late);
      TrailOn(boards, cmds, statuses, early);
      boards := boards + [early];
    }
  }

  /** The j-th step back from s leads along the trail. */
  ghost predicate StepsBack(moves: seq<CommandHead>, s: Position, boards: seq<Board>, j: nat) {
    && 0 < j < |boards| && j <= s.applied <= |moves| == |s.statuses|
    && Reverts(boards[j - 1], moves[s.applied - j], s.statuses[s.applied - j], boards[j])
  }

  lemma TrailStepsBack(moves: seq<CommandHead>, s: Position, cmds: seq<CommandHead>, statuses: seq<MoveStatus>,
                       boards: seq<Board>, j: nat)
    requires JustMade(moves, s, cmds, statuses) && Trail(boards, cmds, statuses) && 0 < j <= |cmds|
    ensures StepsBack(moves, s, boards, j)
  {
    assert OnTrail(boards, cmds, statuses, j - 1);
    MadeAt(moves, s, cmds, statuses, |cmds| - j);
  }

  lemma OneStepBack(moves: seq<CommandHead>, s: Position, boards: seq<Board>, j: nat)
    requires StepsBack(moves, s, boards, j) && LeadsBack(moves, s, j - 1, boards[j - 1])
    ensures LeadsBack(moves, s, j, boards[j])
  {
    LeadsFurtherBack(moves, s, j - 1, boards[j - 1], boards[j]);
  }

  lemma {:induction false} TrailLeadsBack(moves: seq<CommandHead>, s: Position, boards: seq<Board>, k: nat)
    requires OnTrack(moves, s) && k < |boards| && boards[0] == s.board
    requires forall j: nat :: 0 < j <= k ==> StepsBack(moves, s, boards, j)
    ensures LeadsBack(moves, s, k, boards[k])
    decreases k
  {
    if k > 0 {
      assert StepsBack(moves, s, boards, k);
      TrailLeadsBack(moves, s, boards, k - 1);
      OneStepBack(moves, s, boards, k);
    }
  }

  lemma BackIsBackward(moves: seq<CommandHead>, s: Position, cmds: seq<CommandHead>,
                       statuses: seq<MoveStatus>, b: Board)
    requires OnTrack(moves, s) && JustMade(moves, s, cmds, statuses) && Backward(s.board, cmds, statuses) == Some(b)
    ensures LeadsBack(moves, s, |cmds|, b)
  {
    var boards := BackwardTrail(s.board, cmds, statuses, b);
    forall j: nat | 0 < j <= |cmds|
      ensures StepsBack(moves, s, boards, j)
    {
      TrailStepsBack(moves, s, cmds, statuses, boards, j);
    }
    TrailLeadsBack(moves, s, boards, |cmds|);
  }

  lemma ShownIsJustMade(moves: seq<CommandHead>, s: Position, cmds: seq<CommandHead>, r: Run, t: Position)
    requires OnTrack(moves, s) && UpNext(moves, s, cmds) && |r.statuses| == |cmds| && Shows(s, r, |cmds|, t)
    ensures JustMade(moves, t, cmds, r.statuses)
  {
    assert Overwritten(s.statuses, s.applied, r.statuses)[s.applied..s.applied + |cmds|] == r.statuses;
  }

  /** From any consistent position, steps forward through recorded moves and as many steps back end
      at the same move, and on the same board exactly when every tank on the board that gets repaired
      on the way back was at full health before. */
  lemma ThereAndBack(moves: seq<CommandHead>, s: Position, cmds: seq<CommandHead>)
    requires OnTrack(moves, s) && UpNext(moves, s, cmds)
    requires s.board.Consistent() && s.board.Slotted() && Recorded(s.board, cmds)
    ensures var t := Back(moves, Ahead(moves, s, |cmds|), |cmds|);
            t.applied == s.applied && (t.board == s.board <==> AllWhole(s.board, RepairedIn(s.board, cmds)))
  {
    AheadIsForward(moves, s, cmds);
    UndoRestoresIff(s.board, cmds);
    var r, t := Forward(s.board, cmds), Ahead(moves, s, |cmds|);
    ShownIsJustMade(moves, s, cmds, r, t);
    BackIsBackward(moves, t, cmds, r.statuses, Backward(r.board, cmds, r.statuses).value);
  }

  lemma HitsStep(b: Board, hits: seq<Vec2>, k: nat)
    requires b.Sized() && b.KnownOccupants() && k < |hits| && forall j :: 0 <= j < |hits| ==> b.InBounds(hits[j])
    requires forall i :: 0 <= i < |b.tanks| ==> b.tanks[i].id == i
    ensures var b1 := RepairTank(b, hits[k]);
            && b1.width == b.width && b1.height == b.height && b1.KnownOccupants()
            && (forall i :: 0 <= i < |b1.tanks| ==> b1.tanks[i].id == i)
            && RepairHits(b, hits[k..]) == RepairHits(b1, hits[k + 1..])
  {
    assert hits[k..][0] == hits[k] && hits[k..][1..] == hits[k + 1..];
  }

  class ReplayManager {
    const game: GameInstance
    const moves: seq<CommandHead>
    var applied: nat
    var statuses: seq<MoveStatus>

    ghost function State(): Position
      reads this, game, game.cells, game.tanks
    {
      Position(game.Contents(), applied, statuses)
    }

    constructor (game: GameInstance, moves: seq<CommandHead>)
      ensures this.game == game && this.moves == moves && applied == 0 && OnTrack(moves, State())
    {
      this.game, this.moves := game, moves;
      applied, statuses := 0, seq(|moves|, _ => MoveStatus(false, []));
    }

    /** The commands to a tank on the way forward. */
    method ReplayTank(c: CommandHead) returns (valid: bool, status: MoveStatus)
      requires Ready(game.Contents()) && c.kind != Place
      modifies game.cells, game.tanks
      ensures match ReplayApply(old(game.Contents()), c)
              case Applied(b, st) => valid && status == st && game.Contents() == b
              case _ => !valid && game.Contents() == old(game.Contents())
    {
      valid, status := false, Flag(false);
      if c.tankId >= game.tanks.Length {
        return;
      }
      var tank := game.tanks[c.tankId];
      if tank.health == 0 || tank.owner != c.sender {
        return;
      }
      CommandedIsPlaced(game.Contents(), c);
      match c.kind {
        case Move =>
          var moved := game.MoveTank(c.tankId, c.first != 0);
          valid, status := true, Flag(moved);
        case RotateTank =>
          game.RotateTank(c.tankId, c.first);
          valid, status := true, Flag(true);
        case RotateBarrel =>
          game.RotateTankBarrel(c.tankId, c.first);
          valid, status := true, Flag(true);
        case Fire =>
          if tank.loaded {
            valid := true;
            status := game.ReplayFireTank(c.tankId);
          }
        case Load =>
          if !tank.loaded {
            game.LoadTank(c.tankId);
            valid, status := true, Flag(true);
          }
        case _ =>
      }
    }

    method ReplayPlace(c: CommandHead) returns (valid: bool)
      requires Ready(game.Contents()) && c.kind == Place
      modifies game`players, game.cells, game.tanks
      ensures match ReplayApply(old(game.Contents()), c)
              case Applied(b, st) => valid && st == Flag(true) && game.Contents() == b
              case _ => !valid && game.Contents() == old(game.Contents())
    {
      valid := false;
      var pos := Vec2(c.first, c.second);
      if pos.x > game.width - 1 || pos.y > game.height - 1 || c.tankId >= 8 {
        return;
      }
      if c.sender < |game.players| && game.players[c.sender].placed < game.numTanks {
        assert game.Contents().GoodPlayer(c.sender);
        game.PlaceTank(pos, c.sender, c.tankId);
        valid := true;
      }
    }

    method StepForward()
      requires OnTrack(moves, State()) && Ready(game.Contents())
      modifies this, game`players, game.cells, game.tanks
      ensures State() == Next(moves, old(State()))
    {
      if applied >= |moves| {
        return;
      }
      var c := moves[applied];
      var valid, status;
      if c.kind == Place {
        valid := ReplayPlace(c);
        status := Flag(true);
      } else {
        valid, status := ReplayTank(c);
      }
      if valid {
        statuses := statuses[applied := status];
        applied := applied + 1;
      }
    }

    /** repair_tank on each recorded hit. */
    method RepairAll(hits: seq<Vec2>)
      requires game.Contents().Sized() && forall k :: 0 <= k < |hits| ==> game.Contents().InBounds(hits[k])
      requires game.Contents().KnownOccupants()
      requires forall i :: 0 <= i < game.tanks.Length ==> game.tanks[i].id == i
      modifies game.cells, game.tanks
      ensures game.Contents() == RepairHits(old(game.Contents()), hits)
    {
      ghost var b := game.Contents();
      for k := 0 to |hits|
        invariant game.Contents().Sized() && game.Contents().KnownOccupants()
        invariant game.width == b.width && game.height == b.height
        invariant forall i :: 0 <= i < game.tanks.Length ==> game.tanks[i].id == i
        invariant RepairHits(game.Contents(), hits[k..]) == RepairHits(b, hits)
      {
        HitsStep(game.Contents(), hits, k);
        game.RepairTank(hits[k]);
      }
    }

    /** The commands to a tank on the way back. */
    method RevertTank(c: CommandHead, st: MoveStatus) returns (valid: bool)
      requires Revertible(game.Contents(), st) && c.kind != Place
      modifies game.cells, game.tanks
      ensures match Revert(old(game.Contents()), c, st)
              case Applied(b, _) => valid && game.Contents() == b
              case _ => !valid && game.Contents() == old(game.Contents())
    {
      valid := false;
      if c.tankId >= game.tanks.Length {
        return;
      }
      var tank := game.tanks[c.tankId];
      if tank.health == 0 || tank.owner != c.sender {
        return;
      }
      assert game.Contents().GoodTank(c.tankId);
      assert forall i :: 0 <= i < game.tanks.Length ==> game.Contents().GoodTank(i) ==> game.tanks[i].id == i;
      match c.kind {
        case Move =>
          if st.success {
            var moved := game.MoveTank(c.tankId, c.first == 0);
          }
          valid := true;
        case RotateTank =>
          game.RotateTank(c.tankId, if c.first == 0 then 1 else 0);
          valid := true;
        case RotateBarrel =>
          game.RotateTankBarrel(c.tankId, if c.first == 0 then 1 else 0);
          valid := true;
        case Fire =>
          if !tank.loaded {
            if st.success {
              RepairAll(st.hits);
            }
            game.LoadTank(c.tankId);
            valid := true;
          }
        case Load =>
          if tank.loaded {
            game.UnloadTank(c.tankId);
            valid := true;
          }
        case _ =>
      }
    }

    method RevertPlace(c: CommandHead, st: MoveStatus) returns (valid: bool)
      requires Revertible(game.Contents(), st) && c.kind == Place
      modifies game`players, game.cells, game.tanks
      ensures match Revert(old(game.Contents()), c, st)
              case Applied(b, _) => valid && game.Contents() == b
              case _ => !valid && game.Contents() == old(game.Contents())
    {
      valid := false;
      var pos := Vec2(c.first, c.second);
      if pos.x > game.width - 1 || pos.y > game.height - 1 {
        return;
      }
      if c.sender < |game.players| && 0 < game.players[c.sender].placed {
        assert game.Contents().GoodPlayer(c.sender);
        game.RemoveTank(pos, c.sender);
        valid := true;
      }
    }

    method StepBackward()
      requires OnTrack(moves, State())
      requires applied > 0 ==> Revertible(game.Contents(), statuses[applied - 1])
      modifies this, game`players, game.cells, game.tanks
      ensures State() == Previous(moves, old(State()))
    {
      if applied == 0 {
        return;
      }
      var c, st := moves[applied - 1], statuses[applied - 1];
      var valid;
      if c.kind == Place {
        valid := RevertPlace(c, st);
      } else {
        valid := RevertTank(c, st);
      }
      if valid {
        applied := applied - 1;
      }
    }
  }
}
