/** What the commands of a match do to the tanks, in the terms of the rules of the game, and how shots
    and reloads alternate over whole runs. */
module Effects {
  import opened Basics
  import opened Boards
  import opened Commands
  import opened Eliminations
  import opened Matches
  import opened Ledger
  import opened Fidelity

  // ---------------------------------------------------------------- moving

  predicate IsTerrain(b: Board, x: int, y: int)
    requires b.Sized()
  {
    0 <= x < b.width && 0 <= y < b.height && b.At(Vec2(x, y)).kind == Terrain
  }

  predicate IsFree(b: Board, x: int, y: int)
    requires b.Sized()
  {
    && 0 <= x < b.width && 0 <= y < b.height
    && b.At(Vec2(x, y)).kind != Terrain && b.At(Vec2(x, y)).occupant == NOTHING
  }

  /** One step along (dx, dy) leads onto a free cell, and not between two terrain cells. */
  predicate MayStep(b: Board, p: Vec2, dx: int, dy: int)
    requires b.Sized()
  {
    && IsFree(b, p.x + dx, p.y + dy)
    && !(dx != 0 && dy != 0 && IsTerrain(b, p.x + dx, p.y) && IsTerrain(b, p.x, p.y + dy))
  }

  lemma TargetIs(b: Board, id: nat, reverse: bool, dx: int, dy: int)
    requires Movable(b, id)
    requires dx == (if reverse then -1 else 1) * Dx(b.tanks[id].direction)
    requires dy == (if reverse then -1 else 1) * Dy(b.tanks[id].direction)
    ensures var p := b.tanks[id].pos;
            MoveTarget(b, id, reverse) == if MayStep(b, p, dx, dy) then Some(Vec2(p.x + dx, p.y + dy)) else None
  {
    OppositeIsBack(b.tanks[id].direction);
  }

  /** A tank moves one cell along its heading, or against it in reverse, exactly when the cell is free and
      it is not squeezed between terrain; it keeps its heading and leaves its cell empty, and otherwise
      nothing changes at all. */
  lemma MoveEffect(b: Board, c: CommandHead, dx: int, dy: int)
    requires Ready(b) && MayCommand(b, c) && c.kind == Move && b.tanks[c.tankId].direction < 8
    requires dx == (if c.first != 0 then -1 else 1) * Dx(b.tanks[c.tankId].direction)
    requires dy == (if c.first != 0 then -1 else 1) * Dy(b.tanks[c.tankId].direction)
    ensures var t, o := b.tanks[c.tankId], ServerApply(b, false, c);
            && o.Applied?
            && if MayStep(b, t.pos, dx, dy) then
                 var q := Vec2(t.pos.x + dx, t.pos.y + dy);
                 && o.status.success && o.board.tanks == b.tanks[c.tankId := t.(pos := q)]
                 && o.board.Sized() && o.board.InBounds(q) && o.board.InBounds(t.pos)
                 && o.board.At(q).occupant == c.tankId && o.board.At(t.pos).occupant == NOTHING
               else !o.status.success && o.board == b
  {
    CommandedIsPlaced(b, c);
    var o := MoveTarget(b, c.tankId, c.first != 0);
    TargetIs(b, c.tankId, c.first != 0, dx, dy);
    if o.Some? {
      LeftBehind(b, c.tankId, o.value);
    }
  }

  lemma OppositeIsBack(d: u8)
    requires d < 8
    ensures Opposite(d) < 8 && Dx(Opposite(d)) == -Dx(d) && Dy(Opposite(d)) == -Dy(d)
  {
  }

  lemma LeftBehind(b: Board, id: nat, to: Vec2)
    requires Movable(b, id) && b.InBounds(to) && to != b.tanks[id].pos && id < 256
    ensures var b' := Relocate(b, id, to); b'.At(to).occupant == id && b'.At(b.tanks[id].pos).occupant == NOTHING
  {
    if b.Idx(to) == b.Idx(b.tanks[id].pos) {
      IdxInjective(b, to, b.tanks[id].pos);
    }
  }

  // ---------------------------------------------------------------- turning

  /** 0 turns a tank or its barrel clockwise by one eighth and anything else the other way, and nothing
      else changes. */
  lemma RotationEffect(b: Board, c: CommandHead)
    requires Ready(b) && MayCommand(b, c) && c.kind in {RotateTank, RotateBarrel}
    ensures var t, o := b.tanks[c.tankId], ServerApply(b, false, c);
            && o.Applied? && c.tankId < |o.board.tanks|
            && var t' := o.board.tanks[c.tankId];
            && o.board == b.(tanks := b.tanks[c.tankId := t'])
            && (if c.kind == RotateTank then t' == t.(direction := t'.direction) else t' == t.(barrel := t'.barrel))
            && (c.kind == RotateTank ==> EighthTurn(t.direction, t'.direction, c.first == 0))
            && (c.kind == RotateBarrel ==> EighthTurn(t.barrel, t'.barrel, c.first == 0))
  {
    CommandedIsPlaced(b, c);
    TurnIsEighth(b.tanks[c.tankId].direction, c.first);
    TurnIsEighth(b.tanks[c.tankId].barrel, c.first);
  }

  // ---------------------------------------------------------------- shooting

  /** What a shot does to tank i: the shooter's shell is gone, and the first tank met loses one health
      point if it is somebody else's. */
  function AfterShot(t: Tank, isShooter: bool, isHit: bool): Tank {
    t.(loaded := t.loaded && !isShooter, health := if isHit && t.health > 0 then t.health - 1 else t.health)
  }

  /** A shot is taken exactly by a loaded tank.  It costs the shell and harms nobody but the first tank on
      the line of fire, if that is somebody else's: it loses one health point, and its cell is emptied
      when that was the last one. */
  lemma FireEffect(b: Board, c: CommandHead, i: nat)
    requires Ready(b) && MayCommand(b, c) && c.kind == Fire && i < |b.tanks| && CanShoot(b, c.tankId)
    ensures var o := ServerApply(b, false, c);
            && (o.Applied? <==> b.tanks[c.tankId].loaded)
            && (o.Applied? ==>
                  var hit := Victim(b, c.tankId) == Some(i) && b.tanks[i].owner != c.sender;
                  && |o.board.tanks| == |b.tanks|
                  && o.board.tanks[i] == AfterShot(b.tanks[i], i == c.tankId, hit)
                  && (hit ==> o.status.success && b.InBounds(b.tanks[i].pos))
                  && (o.status.success <==> Victim(b, c.tankId).Some? && !FriendlyFirst(b, c))
                  && (!o.status.success ==> o.board.cells == b.cells)
                  && (hit ==>
                        o.board.cells ==
                        (if b.tanks[i].health == 1 then b.Occupied(b.tanks[i].pos, NOTHING) else b.cells)))
  {
    CommandedIsPlaced(b, c);
    VictimIsAnother(b, c.tankId);
  }

  // ---------------------------------------------------------------- shells over a run

  /** Whether the tank has a shell after these commands, going by its last shot or reload; a tank is placed
      with one. */
  function HasShell(history: seq<CommandHead>, id: nat): bool {
    if history == [] then true
    else
      var n := |history| - 1;
      if history[n].tankId == id && history[n].kind == Fire then false
      else if history[n].tankId == id && history[n].kind == Load then true
      else HasShell(history[..n], id)
  }

  predicate Shell(b: Board, id: nat)
    requires id < |b.tanks|
  {
    b.tanks[id].owner == NOTHING || b.tanks[id].loaded
  }

  /** Shots are taken with a shell and reloads without one. */
  predicate InTurn(history: seq<CommandHead>, i: nat)
    requires i < |history|
  {
    && (history[i].kind == Fire ==> HasShell(history[..i], history[i].tankId))
    && (history[i].kind == Load ==> !HasShell(history[..i], history[i].tankId))
  }

  /** The records of the tanks say what the history says. */
  predicate ShellsKept(b: Board, history: seq<CommandHead>) {
    && (forall id :: 0 <= id < |b.tanks| ==> Shell(b, id) == HasShell(history, id))
    && (forall i :: 0 <= i < |history| ==> InTurn(history, i))
  }

  lemma ShellEffect(b: Board, setup: bool, c: CommandHead, id: nat)
    requires Ready(b) && ServerApply(b, setup, c).Applied? && id < |b.tanks|
    ensures var b' := ServerApply(b, setup, c).board;
            && |b'.tanks| == |b.tanks|
            && Shell(b', id) == (if c.kind == Fire && c.tankId == id then false
                                 else if c.kind == Load && c.tankId == id then true else Shell(b, id))
    ensures c.kind == Fire ==> c.tankId < |b.tanks| && Shell(b, c.tankId)
    ensures c.kind == Load ==> c.tankId < |b.tanks| && !Shell(b, c.tankId)
  {
    if c.kind == Place {
      assert b.GoodPlayer(c.sender);
      SlotFits(b, c.sender, b.players[c.sender].placed);
    } else {
      CommandedIsPlaced(b, c);
    }
  }

  lemma InTurnStays(history: seq<CommandHead>, c: CommandHead, i: nat)
    requires i < |history| && InTurn(history, i)
    ensures InTurn(history + [c], i)
  {
    assert (history + [c])[..i] == history[..i];
  }

  lemma HasShellNext(history: seq<CommandHead>, c: CommandHead, id: nat)
    ensures HasShell(history + [c], id) ==
            if c.tankId == id && c.kind == Fire then false
            else if c.tankId == id && c.kind == Load then true else HasShell(history, id)
  {
    assert (history + [c])[..|history|] == history;
  }

  lemma CommandKeepsShells(m: Match, m': Match, c: CommandHead)
    requires m.Shaped() && ShellsKept(m.board, m.history) && CommandOn(m, m', c)
    ensures ShellsKept(m'.board, m'.history)
  {
    var n := |m.history|;
    forall id | 0 <= id < |m'.board.tanks|
      ensures Shell(m'.board, id) == HasShell(m'.history, id)
    {
      ServerKeepsBoard(m.board, m.phase == Setup, c);
      ShellEffect(m.board, m.phase == Setup, c, id);
      HasShellNext(m.history, c, id);
    }
    forall i | 0 <= i < |m'.history|
      ensures InTurn(m'.history, i)
    {
      if i < n {
        InTurnStays(m.history, c, i);
      } else {
        assert m'.history[..n] == m.history;
        ShellWas(m, c);
      }
    }
  }

  lemma ShellWas(m: Match, c: CommandHead)
    requires m.Shaped() && ShellsKept(m.board, m.history) && ServerApply(m.board, m.phase == Setup, c).Applied?
    ensures c.kind == Fire ==> HasShell(m.history, c.tankId)
    ensures c.kind == Load ==> !HasShell(m.history, c.tankId)
  {
    if c.kind == Fire || c.kind == Load {
      CommandedIsPlaced(m.board, c);
      ShellEffect(m.board, m.phase == Setup, c, c.tankId);
    }
  }

  lemma OneOnKeepsShells(m: Match, m': Match)
    requires m.Shaped() && ShellsKept(m.board, m.history) && OneCommandOn(m, m')
    ensures ShellsKept(m'.board, m'.history)
  {
    if !(m'.board == m.board && m'.history == m.history) {
      var c :| CommandOn(m, m', c);
      CommandKeepsShells(m, m', c);
    }
  }

  lemma DeliveryKeepsShells(m: Match, p: nat, c: Command, t: nat, m': Match)
    requires m.Shaped() && ShellsKept(m.board, m.history) && m' == Step(m, Deliver(p, c, t))
    ensures ShellsKept(m'.board, m'.history)
  {
    if !m.corrupt && p < |m.alive| && m.phase != Concluded && t == m.turnId && |m.queues[p]| < MAX_QUEUE_SIZE {
      var m1 := m.(queues := m.queues[p := m.queues[p] + [c.(head := c.head.(sender := p))]]);
      MoveArrivedRecords(m1, t);
      OneOnKeepsShells(m1, MoveArrived(m1, t));
    }
  }

  lemma EliminationKeepsShells(m: Match, p: nat)
    requires m.Shaped() && ShellsKept(m.board, m.history) && p < |m.alive| && m.alive[p]
    ensures ShellsKept(HandleElimination(m, p).board, HandleElimination(m, p).history)
  {
    RemovalRecordsNothing(m, p);
    var b' := Eliminate(m.board, p);
    forall id | 0 <= id < |b'.tanks|
      ensures id < |m.board.tanks| && Shell(b', id) == Shell(m.board, id)
    {
    }
  }

  lemma TurnKeepsShells(m: Match)
    requires m.Shaped() && m.pending > 0 && ShellsKept(m.board, m.history)
    ensures ShellsKept(StartTurn(m).board, StartTurn(m).history)
  {
    NewTurnRecordsNothing(m);
    StartTurnRecords(m);
    OneOnKeepsShells(NewTurn(m), StartTurn(m));
  }

  lemma StepKeepsShells(m: Match, e: Event)
    requires m.Shaped() && Enabled(m, e) && ShellsKept(m.board, m.history)
    ensures ShellsKept(Step(m, e).board, Step(m, e).history)
  {
    if !m.corrupt {
      match e
      case RunTurn => TurnKeepsShells(m);
      case Deliver(p, c, t) => DeliveryKeepsShells(m, p, c, t, Step(m, e));
      case TimerFires(t, expired) =>
        if t == m.turnId && !m.claimed && expired && m.alive[m.cur] {
          EliminationKeepsShells(m.(claimed := true), m.cur);
        }
      case Forfeit(p) =>
        if p < |m.alive| && m.phase != Concluded && m.alive[p] {
          EliminationKeepsShells(m, p);
        }
      case Sync(p) =>
    }
  }

  lemma {:induction false} RunKeepsShells(m: Match, events: seq<Event>)
    requires Sane(m) && CanRun(m, events) && ShellsKept(m.board, m.history)
    ensures ShellsKept(After(m, events).board, After(m, events).history)
    decreases |events|
  {
    if events != [] {
      StepIsSane(m, events[0]);
      StepKeepsShells(m, events[0]);
      RunKeepsShells(Step(m, events[0]), events[1..]);
    }
  }

  /** A tank that has a shell again after a shot was reloaded in between. */
  lemma {:induction false} Reloaded(history: seq<CommandHead>, i: nat, id: nat) returns (k: nat)
    requires i < |history| && history[i].kind == Fire && history[i].tankId == id && HasShell(history, id)
    ensures i < k < |history| && history[k].kind == Load && history[k].tankId == id
    decreases |history|
  {
    var n := |history| - 1;
    if history[n].tankId == id && history[n].kind == Load {
      k := n;
    } else {
      k := Reloaded(history[..n], i, id);
    }
  }

  /** And one that has none again after a reload has shot in between. */
  lemma {:induction false} ShotAgain(history: seq<CommandHead>, i: nat, id: nat) returns (k: nat)
    requires i < |history| && history[i].kind == Load && history[i].tankId == id && !HasShell(history, id)
    ensures i < k < |history| && history[k].kind == Fire && history[k].tankId == id
    decreases |history|
  {
    var n := |history| - 1;
    if history[n].tankId == id && history[n].kind == Fire {
      k := n;
    } else {
      k := ShotAgain(history[..n], i, id);
    }
  }

  lemma InitialShells(m: Match)
    requires Initial(m)
    ensures ShellsKept(m.board, m.history)
  {
    forall id | 0 <= id < |m.board.tanks|
      ensures m.board.tanks[id].owner == NOTHING
    {
      var p, k := SlotOf(m.board, id);
      assert m.board.GoodPlayer(p);
    }
  }

  /** In every history of a match the shots and the reloads of a tank alternate. */
  lemma ShotsAndReloadsAlternate(m: Match, events: seq<Event>, i: nat, j: nat) returns (k: nat)
    requires Initial(m) && Sane(m) && CanRun(m, events) && i < j < |After(m, events).history|
    requires var h := After(m, events).history;
             h[i].tankId == h[j].tankId && h[i].kind == h[j].kind && h[i].kind in {Fire, Load}
    ensures var h := After(m, events).history;
            i < k < j && h[k].tankId == h[i].tankId && h[k].kind == if h[i].kind == Fire then Load else Fire
  {
    var h := After(m, events).history;
    InitialShells(m);
    RunKeepsShells(m, events);
    assert InTurn(h, j) && h[..j][i] == h[i];
    if h[i].kind == Fire {
      k := Reloaded(h[..j], i, h[i].tankId);
    } else {
      k := ShotAgain(h[..j], i, h[i].tankId);
    }
  }
}
