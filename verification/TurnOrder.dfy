/** The order of turns in play: a turn passes to the next seat, only when it is used up or its player is
    out, so between the players of two successive turns there are only seats of dead players. */
module TurnOrder {
  import opened Basics
  import opened Boards
  import opened Commands
  import opened Matches
  import opened Ledger
  import opened Rankings

  // ---------------------------------------------------------------- seats

  function NextSeat(n: nat, a: nat): (b: nat)
    requires a < n
    ensures b < n
  {
    if a + 1 == n then 0 else a + 1
  }

  /** b comes after a past d seats of dead players. */
  predicate Handed(alive: seq<bool>, a: nat, b: nat, d: nat)
    requires a < |alive|
    decreases d
  {
    var s := NextSeat(|alive|, a);
    if d == 0 then b == s else !alive[s] && Handed(alive, s, b, d - 1)
  }

  ghost predicate Follows(alive: seq<bool>, a: nat, b: nat) {
    a < |alive| && exists d: nat :: Handed(alive, a, b, d)
  }

  lemma {:induction false} HandedPast(alive: seq<bool>, a: nat, b: nat, d: nat)
    requires a < |alive| && b < |alive| && Handed(alive, a, b, d) && !alive[b]
    ensures Handed(alive, a, NextSeat(|alive|, b), d + 1)
    decreases d
  {
    if d > 0 {
      HandedPast(alive, NextSeat(|alive|, a), b, d - 1);
    }
  }

  /** Nobody comes back to life. */
  predicate NoRevival(alive: seq<bool>, alive': seq<bool>) {
    |alive'| == |alive| && forall p :: 0 <= p < |alive| && alive'[p] ==> alive[p]
  }

  lemma {:induction false} HandedStays(alive: seq<bool>, alive': seq<bool>, a: nat, b: nat, d: nat)
    requires a < |alive| && NoRevival(alive, alive') && Handed(alive, a, b, d)
    ensures Handed(alive', a, b, d)
    decreases d
  {
    if d > 0 {
      HandedStays(alive, alive', NextSeat(|alive|, a), b, d - 1);
    }
  }

  lemma FollowsStays(alive: seq<bool>, alive': seq<bool>, a: nat, b: nat)
    requires NoRevival(alive, alive') && Follows(alive, a, b)
    ensures Follows(alive', a, b)
  {
    var d: nat :| Handed(alive, a, b, d);
    HandedStays(alive, alive', a, b, d);
  }

  lemma FollowsPast(alive: seq<bool>, a: nat, b: nat)
    requires Follows(alive, a, b) && b < |alive| && !alive[b]
    ensures Follows(alive, a, NextSeat(|alive|, b))
  {
    var d: nat :| Handed(alive, a, b, d);
    HandedPast(alive, a, b, d);
  }

  lemma NextFollows(alive: seq<bool>, a: nat)
    requires a < |alive|
    ensures Follows(alive, a, NextSeat(|alive|, a))
  {
    assert Handed(alive, a, NextSeat(|alive|, a), 0);
  }

  // ---------------------------------------------------------------- one step

  /** The turn lasted three moves, or was cut because its player is out. */
  predicate Ended(t: Turn, alive: seq<bool>) {
    t.sender < |alive| && (t.moves == 3 || (t.cut && !alive[t.sender]))
  }

  /** The current player stays, or passes the turn to the next seat after using it up or dropping out. */
  predicate TurnPasses(m: Match, m': Match)
    requires m.cur < |m.alive|
  {
    if m.phase != Play || (m'.cur == m.cur && m'.turns == m.turns) then m'.turns == m.turns
    else
      && m'.cur == m.Next()
      && if m'.turns == m.turns then !m.alive[m.cur]
         else |m'.turns| == |m.turns| + 1 && m'.turns[..|m.turns|] == m.turns
              && m'.turns[|m.turns|].sender == m.cur && Ended(m'.turns[|m.turns|], m'.alive)
  }

  lemma ViewsPass(m: Match, i: nat)
    requires m.Shaped()
    ensures Views(m, i).cur == m.cur && Views(m, i).turns == m.turns && Views(m, i).phase == m.phase
    ensures Views(m, i).fuel == m.fuel
  {
  }

  lemma AcceptPasses(m: Match, c: CommandHead)
    requires m.Shaped() && m.fuel >= 1 && m.phase != Concluded
    ensures TurnPasses(m, Accept(m, c)) && Accept(m, c).phase == m.phase && Accept(m, c).fuel >= 1
    ensures m.phase == Setup ==> Accept(m, c).turns == m.turns
  {
    match ServerApply(m.board, m.phase == Setup, c)
    case Applied(b, _) =>
      ServerKeepsBoard(m.board, m.phase == Setup, c);
      ViewsPass(Record(m, c, b), 0);
      RecordedPasses(m, c, b, Accept(m, c));
    case _ =>
  }

  lemma RecordedPasses(m: Match, c: CommandHead, b: Board, m': Match)
    requires m.Shaped() && m.fuel >= 1 && m.phase != Concluded
    requires Ready(b) && SameMap(m.board, b) && |m'.alive| == |m.alive|
    requires m'.cur == Record(m, c, b).cur && m'.turns == Record(m, c, b).turns
    ensures TurnPasses(m, m') && Record(m, c, b).phase == m.phase && Record(m, c, b).fuel >= 1
    ensures m.phase == Setup ==> Record(m, c, b).turns == m.turns
  {
  }

  lemma ArrivalPasses(m: Match, t: nat)
    requires m.Shaped() && m.fuel >= 1
    ensures TurnPasses(m, MoveArrived(m, t)) && MoveArrived(m, t).phase == m.phase && MoveArrived(m, t).fuel >= 1
  {
    if t == m.turnId && !m.claimed && m.phase != Concluded && m.queues[m.cur] != [] {
      var i := Top(m.queues[m.cur]);
      AcceptPasses(m.(claimed := true, queues := m.queues[m.cur := Without(m.queues[m.cur], i)]),
                   m.queues[m.cur][i].head);
    }
  }

  lemma {:induction false} ViewsKeepDead(m: Match, i: nat, p: nat)
    requires m.Shaped() && p < |m.alive| && !m.alive[p]
    ensures !Views(m, i).alive[p]
    decreases |m.alive| - i
  {
    if i < |m.alive| {
      ViewsKeepDead(ViewOf(m, i), i + 1, p);
    }
  }

  lemma EliminationPasses(m: Match, p: nat)
    requires m.Shaped() && p < |m.alive| && m.fuel >= 1
    ensures TurnPasses(m, HandleElimination(m, p)) && HandleElimination(m, p).phase == m.phase
    ensures HandleElimination(m, p).fuel >= 1
  {
    if m.alive[p] {
      ViewsPass(Remove(m, p), 0);
      ViewsKeepDead(Remove(m, p), 0, p);
    }
  }

  /** After NewTurn, start_turn passes the turn on or leaves it. */
  lemma StartPasses(m: Match)
    requires m.Shaped() && m.pending > 0 && NewTurn(m).fuel >= 1
    ensures TurnPasses(NewTurn(m), StartTurn(m)) && StartTurn(m).fuel >= 1
    ensures StartTurn(m).phase == NewTurn(m).phase || StartTurn(m).phase == Concluded
  {
    var m1 := NewTurn(m);
    if m1.remaining >= 2 {
      if m1.alive[m1.cur] {
        ArrivalPasses(m1.(armed := Some((m1.cur, m1.turnId))), m1.turnId);
      } else {
        ViewsPass(m1.(cur := m1.Next()), 0);
      }
    }
  }

  lemma DeliveryPasses(m: Match, p: nat, c: Command, t: nat)
    requires m.Shaped() && m.fuel >= 1 && m.phase == Play
    ensures TurnPasses(m, Step(m, Deliver(p, c, t)))
  {
    if p == m.cur {
      ArrivalPasses(m.(queues := m.queues[p := m.queues[p] + [c.(head := c.head.(sender := p))]]), t);
    }
  }

  /** In play every handler leaves the turn where it is, or passes it to the next seat because it is used
      up or its player is out. */
  lemma StepPassesTurn(m: Match, e: Event)
    requires m.Shaped() && m.fuel >= 1 && m.phase == Play && Enabled(m, e)
    ensures TurnPasses(m, Step(m, e))
  {
    if !m.corrupt {
      match e
      case RunTurn => StartPasses(m);
      case Deliver(p, c, t) => DeliveryPasses(m, p, c, t);
      case TimerFires(t, expired) => EliminationPasses(m.(claimed := true), m.cur);
      case Forfeit(p) =>
        if p < |m.alive| {
          EliminationPasses(m, p);
        }
      case Sync(p) =>
    }
  }

  // ---------------------------------------------------------------- what runs keep

  /** The sender of the turn before turn i; the first turn comes after the last seat. */
  function SenderBefore(turns: seq<Turn>, i: nat, n: nat): nat
    requires i <= |turns| && n > 0
  {
    if i == 0 then n - 1 else turns[i - 1].sender
  }

  /** The players of successive turns sit next to one another, but for the dead. */
  ghost predicate InSeatOrder(turns: seq<Turn>, alive: seq<bool>) {
    |alive| > 0 &&
    forall i :: 0 <= i < |turns| ==>
      Ended(turns[i], alive) && Follows(alive, SenderBefore(turns, i, |alive|), turns[i].sender)
  }

  /** The turns, and the current player after the last of them. */
  ghost predicate SeatsTo(turns: seq<Turn>, alive: seq<bool>, cur: nat) {
    InSeatOrder(turns, alive) && cur < |alive| && Follows(alive, SenderBefore(turns, |turns|, |alive|), cur)
  }

  ghost predicate Seated(m: Match) {
    && m.cur < |m.alive| && m.fuel >= 1
    && (m.phase == Setup ==> m.turns == [])
    && InSeatOrder(m.turns, m.alive)
    && (m.phase == Play ==> SeatsTo(m.turns, m.alive, m.cur))
  }

  lemma InitialIsSeated(m: Match)
    requires Initial(m)
    ensures Seated(m)
  {
  }

  lemma OrderStays(turns: seq<Turn>, alive: seq<bool>, alive': seq<bool>)
    requires InSeatOrder(turns, alive) && NoRevival(alive, alive')
    ensures InSeatOrder(turns, alive')
  {
    forall i | 0 <= i < |turns|
      ensures Ended(turns[i], alive') && Follows(alive', SenderBefore(turns, i, |alive'|), turns[i].sender)
    {
      FollowsStays(alive, alive', SenderBefore(turns, i, |alive|), turns[i].sender);
    }
  }

  lemma OneMoreTurn(turns: seq<Turn>, t: Turn, alive: seq<bool>)
    requires InSeatOrder(turns, alive) && Ended(t, alive)
    requires Follows(alive, SenderBefore(turns, |turns|, |alive|), t.sender)
    ensures InSeatOrder(turns + [t], alive)
  {
    var more := turns + [t];
    forall i | 0 <= i < |more|
      ensures Ended(more[i], alive) && Follows(alive, SenderBefore(more, i, |alive|), more[i].sender)
    {
      if i < |turns| {
        assert Ended(turns[i], alive) && Follows(alive, SenderBefore(turns, i, |alive|), turns[i].sender);
      }
    }
  }

  lemma SeatsStay(turns: seq<Turn>, alive: seq<bool>, alive': seq<bool>, cur: nat)
    requires SeatsTo(turns, alive, cur) && NoRevival(alive, alive')
    ensures SeatsTo(turns, alive', cur)
  {
    OrderStays(turns, alive, alive');
    FollowsStays(alive, alive', SenderBefore(turns, |turns|, |alive|), cur);
  }

  lemma TurnEnds(turns: seq<Turn>, alive: seq<bool>, cur: nat, turns': seq<Turn>)
    requires SeatsTo(turns, alive, cur) && |turns'| == |turns| + 1 && turns'[..|turns|] == turns
    requires Ended(turns'[|turns|], alive) && turns'[|turns|].sender == cur
    ensures SeatsTo(turns', alive, NextSeat(|alive|, cur))
  {
    assert turns' == turns + [turns'[|turns|]];
    OneMoreTurn(turns, turns'[|turns|], alive);
    NextFollows(alive, cur);
  }

  lemma SeatIsSkipped(turns: seq<Turn>, alive: seq<bool>, cur: nat)
    requires SeatsTo(turns, alive, cur) && !alive[cur]
    ensures SeatsTo(turns, alive, NextSeat(|alive|, cur))
  {
    FollowsPast(alive, SenderBefore(turns, |turns|, |alive|), cur);
  }

  lemma PlayKeepsSeats(m: Match, m': Match)
    requires m.cur < |m.alive| && m.phase == Play && SeatsTo(m.turns, m.alive, m.cur)
    requires TurnPasses(m, m') && NoRevival(m.alive, m'.alive)
    ensures SeatsTo(m'.turns, m'.alive, m'.cur)
  {
    SeatsStay(m.turns, m.alive, m'.alive, m.cur);
    if |m'.turns| > |m.turns| {
      TurnEnds(m.turns, m'.alive, m.cur, m'.turns);
    } else if m'.cur != m.cur {
      SeatIsSkipped(m.turns, m'.alive, m.cur);
    }
  }

  lemma PassKeepsSeats(m: Match, m': Match)
    requires Seated(m) && TurnPasses(m, m') && NoRevival(m.alive, m'.alive) && m'.fuel >= 1 && m'.cur < |m'.alive|
    requires m'.phase == m.phase || m'.phase == Concluded
    ensures Seated(m')
  {
    if m.phase == Play {
      PlayKeepsSeats(m, m');
    } else {
      OrderStays(m.turns, m.alive, m'.alive);
    }
  }

  lemma NoRevivals(m: Match, m': Match)
    requires RanksKept(m, m')
    ensures NoRevival(m.alive, m'.alive)
  {
    forall p | 0 <= p < |m.alive| && m'.alive[p]
      ensures m.alive[p]
    {
      assert RankKept(m, m', p);
    }
  }

  lemma NewTurnIsSeated(m: Match)
    requires m.Shaped() && Seated(m) && m.pending > 0
    ensures Seated(NewTurn(m))
  {
    NewTurnKeepsRanks(m);
    NoRevivals(m, NewTurn(m));
    if SetupOver(m) {
      NextFollows(NewTurn(m).alive, |m.alive| - 1);
    }
  }

  lemma StartIsSeated(m: Match)
    requires m.Shaped() && Seated(m) && m.pending > 0
    ensures Seated(StartTurn(m))
  {
    NewTurnIsSeated(m);
    StartPasses(m);
    OpeningKeepsRanks(m);
    NoRevivals(NewTurn(m), StartTurn(m));
    PassKeepsSeats(NewTurn(m), StartTurn(m));
  }

  lemma MoveIsSeated(m1: Match, t: nat)
    requires m1.Shaped() && Seated(m1)
    ensures Seated(MoveArrived(m1, t))
  {
    ArrivalPasses(m1, t);
    ArrivalKeepsRanks(m1, t);
    NoRevivals(m1, MoveArrived(m1, t));
    PassKeepsSeats(m1, MoveArrived(m1, t));
  }

  lemma EliminationIsSeated(m: Match, p: nat)
    requires m.Shaped() && Seated(m) && p < |m.alive|
    ensures Seated(HandleElimination(m, p))
  {
    var m' := HandleElimination(m, p);
    EliminationPasses(m, p);
    EliminationKeepsRanks(m, p, m');
    NoRevivals(m, m');
    PassKeepsSeats(m, m');
  }

  lemma StepIsSeated(m: Match, e: Event)
    requires m.Shaped() && Seated(m) && Enabled(m, e)
    ensures Seated(Step(m, e))
  {
    if !m.corrupt {
      match e
      case RunTurn => StartIsSeated(m);
      case Deliver(p, c, t) =>
        if p < |m.alive| {
          MoveIsSeated(m.(queues := m.queues[p := m.queues[p] + [c.(head := c.head.(sender := p))]]), t);
        }
      case TimerFires(t, expired) => EliminationIsSeated(m.(claimed := true), m.cur);
      case Forfeit(p) =>
        if p < |m.alive| {
          EliminationIsSeated(m, p);
        }
      case Sync(p) =>
    }
  }

  /** In play the turn goes round in seat order: a turn lasts three moves unless its player drops out, the
      next turn, and then the current player, come right after it past the seats of dead players only, and
      the first turn starts the count at seat 0. */
  lemma {:induction false} RunIsSeated(m: Match, events: seq<Event>)
    requires Sane(m) && Seated(m) && CanRun(m, events)
    ensures Seated(After(m, events))
    decreases |events|
  {
    if events != [] {
      StepIsSane(m, events[0]);
      StepIsSeated(m, events[0]);
      RunIsSeated(Step(m, events[0]), events[1..]);
    }
  }
}
