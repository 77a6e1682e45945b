/** A match goes on until it is concluded: whatever handlers run, a start_turn is posted or a living
    player's turn is open, and a match nobody commands any more concludes by its timers alone. */
module Progress {
  import opened Basics
  import opened Commands
  import opened Matches
  import opened Ledger
  import opened Fairness

  /** An unclaimed turn of a living player, whose timer is armed, with somebody left to play against. */
  predicate TurnIsOpen(m: Match)
    requires m.cur < |m.alive|
  {
    Opened(m) && !m.claimed && m.remaining >= 2
  }

  predicate Live(m: Match)
    requires m.cur < |m.alive|
  {
    m.phase == Concluded || m.corrupt || m.pending > 0 || TurnIsOpen(m)
  }

  // ---------------------------------------------------------------- every step goes on

  lemma InitialIsLive(m: Match)
    requires Initial(m)
    ensures Live(m)
  {
  }

  lemma EliminationPosts(m: Match, p: nat)
    requires m.Shaped() && p < |m.alive|
    ensures HandleElimination(m, p).pending == m.pending + (if m.alive[p] then 1 else 0)
  {
  }

  lemma AcceptPosts(m: Match, c: CommandHead)
    requires m.Shaped()
    ensures Accept(m, c).pending > 0 || Accept(m, c).corrupt
  {
  }

  /** Handing over a turn claims it and posts the next one, or finds it taken. */
  lemma ArrivalIsLive(m: Match, t: nat)
    requires m.Shaped() && m.queues[m.cur] != [] && ((t == m.turnId && !m.claimed) || Live(m))
    ensures MoveArrived(m, t).Shaped() && Live(MoveArrived(m, t))
  {
    if t == m.turnId && !m.claimed && m.phase != Concluded {
      var i := Top(m.queues[m.cur]);
      AcceptPosts(m.(claimed := true, queues := m.queues[m.cur := Without(m.queues[m.cur], i)]),
                  m.queues[m.cur][i].head);
    }
  }

  lemma StartIsLive(m: Match)
    requires m.Shaped() && m.pending > 0
    ensures StartTurn(m).Shaped() && Live(StartTurn(m))
  {
    var m1 := NewTurn(m);
    if m1.remaining >= 2 && m1.alive[m1.cur] {
      var m2 := m1.(armed := Some((m1.cur, m1.turnId)));
      if m2.queues[m2.cur] != [] {
        ArrivalIsLive(m2, m2.turnId);
      }
    }
  }

  lemma DeliveryIsLive(m: Match, p: nat, c: Command, t: nat)
    requires m.Shaped() && !m.corrupt && Live(m)
    ensures Step(m, Deliver(p, c, t)).Shaped() && Live(Step(m, Deliver(p, c, t)))
  {
    if p < |m.alive| && t == m.turnId && |m.queues[p]| < MAX_QUEUE_SIZE {
      var m1 := m.(queues := m.queues[p := m.queues[p] + [c.(head := c.head.(sender := p))]]);
      if p == m.cur {
        ArrivalIsLive(m1, t);
      }
    }
  }

  /** Every handler leaves a start_turn posted or a turn open, unless it concludes the match. */
  lemma StepIsLive(m: Match, e: Event)
    requires Sane(m) && Enabled(m, e) && Live(m)
    ensures Step(m, e).Shaped() && Live(Step(m, e))
  {
    if !m.corrupt {
      match e
      case RunTurn => StartIsLive(m);
      case Deliver(p, c, t) => DeliveryIsLive(m, p, c, t);
      case TimerFires(t, expired) =>
        if t == m.turnId && !m.claimed && expired {
          EliminationPosts(m.(claimed := true), m.cur);
        }
      case Forfeit(p) =>
        if p < |m.alive| && m.phase != Concluded {
          EliminationPosts(m, p);
        }
      case Sync(p) =>
    }
  }

  /** No run gets stuck: until it is concluded, a start_turn is posted or a living player's turn is open. */
  lemma {:induction false} RunIsLive(m: Match, events: seq<Event>)
    requires Sane(m) && Live(m) && CanRun(m, events)
    ensures After(m, events).Shaped() && Live(After(m, events))
    decreases |events|
  {
    if events != [] {
      StepIsSane(m, events[0]);
      StepIsLive(m, events[0]);
      RunIsLive(Step(m, events[0]), events[1..]);
    }
  }

  lemma DecidedStart(m: Match)
    requires m.Shaped() && m.pending > 0 && NewTurn(m).remaining <= 1
    ensures StartTurn(m).phase == Concluded
  {
  }

  lemma {:induction false} ViewsOnlyRemove(m: Match, i: nat)
    requires m.Shaped()
    ensures Views(m, i).remaining <= m.remaining
    decreases |m.alive| - i
  {
    if i < |m.alive| {
      ViewsOnlyRemove(ViewOf(m, i), i + 1);
    }
  }

  lemma NewTurnOnlyRemoves(m: Match)
    requires m.Shaped() && m.pending > 0
    ensures NewTurn(m).remaining <= m.remaining && NewTurn(m).queues == m.queues
  {
    if SetupOver(m) {
      ViewsOnlyRemove(m.(pending := m.pending - 1, turnId := m.turnId + 1, claimed := false,
                         phase := Play, cur := 0, fuel := TURN_PLAYER_FUEL), 0);
    }
  }

  /** A decided match has its conclusion posted: at most one player is left, and the next start_turn to
      run concludes it. */
  lemma DecidedConcludes(m: Match, events: seq<Event>)
    requires Initial(m) && Sane(m) && CanRun(m, events)
    ensures var s := After(m, events);
            !s.corrupt && s.phase != Concluded && s.remaining <= 1 ==>
              Sane(s) && s.pending > 0 && Step(s, RunTurn).phase == Concluded
  {
    var s := After(m, events);
    RunIsSane(m, events);
    RunIsLive(m, events);
    if !s.corrupt && s.phase != Concluded && s.remaining <= 1 {
      NewTurnOnlyRemoves(s);
      DecidedStart(s);
    }
  }

  // ---------------------------------------------------------------- a match left alone

  predicate OnTheClock(e: Event) {
    e == RunTurn || (e.TimerFires? && e.expired)
  }

  predicate ByTheClock(events: seq<Event>) {
    forall i :: 0 <= i < |events| ==> OnTheClock(events[i])
  }

  /** All commands waiting in the queues. */
  function Waiting(queues: seq<seq<Command>>): nat {
    if queues == [] then 0 else Waiting(queues[..|queues| - 1]) + |queues[|queues| - 1]|
  }

  lemma {:induction false} WaitingChanges(queues: seq<seq<Command>>, i: nat, queue: seq<Command>)
    requires i < |queues|
    ensures Waiting(queues[i := queue]) == Waiting(queues) - |queues[i]| + |queue|
  {
    var n := |queues| - 1;
    if i == n {
      assert queues[i := queue][..n] == queues[..n];
    } else {
      assert queues[i := queue][..n] == queues[..n][i := queue];
      WaitingChanges(queues[..n], i, queue);
    }
  }

  /** No more players and commands than before. */
  predicate NoMore(m: Match, m': Match) {
    m'.remaining < m.remaining || (m'.remaining == m.remaining && Waiting(m'.queues) <= Waiting(m.queues))
  }

  predicate Fewer(m: Match, m': Match) {
    m'.remaining < m.remaining || (m'.remaining == m.remaining && Waiting(m'.queues) < Waiting(m.queues))
  }

  lemma AcceptTakesNone(m: Match, c: CommandHead)
    requires m.Shaped()
    ensures Accept(m, c).remaining <= m.remaining && Accept(m, c).queues == m.queues
  {
    match ServerApply(m.board, m.phase == Setup, c)
    case Applied(b, _) =>
      ServerKeepsBoard(m.board, m.phase == Setup, c);
      ViewsOnlyRemove(Record(m, c, b), 0);
    case _ =>
  }

  /** A command that is taken leaves its queue. */
  lemma ArrivalTakes(m: Match)
    requires m.Shaped() && m.phase != Concluded && !m.claimed && m.queues[m.cur] != []
    ensures Fewer(m, MoveArrived(m, m.turnId))
  {
    var i := Top(m.queues[m.cur]);
    var left := Without(m.queues[m.cur], i);
    WaitingChanges(m.queues, m.cur, left);
    AcceptTakesNone(m.(claimed := true, queues := m.queues[m.cur := left]), m.queues[m.cur][i].head);
  }

  /** The next start_turn opens a turn that nobody has used. */
  lemma StartOpens(m: Match)
    requires m.Shaped() && !m.corrupt && m.phase != Concluded && m.pending > 0
    requires NewTurn(m).remaining >= 2 && NewTurn(m).alive[NewTurn(m).cur]
    ensures var m' := StartTurn(m);
            NoMore(m, m') && m'.Shaped() && (Fewer(m, m') || (TurnIsOpen(m') && !m'.corrupt && m'.phase != Concluded))
  {
    NewTurnOnlyRemoves(m);
    var m1 := NewTurn(m);
    var m2 := m1.(armed := Some((m1.cur, m1.turnId)));
    if m2.queues[m2.cur] != [] {
      ArrivalTakes(m2);
    }
  }

  lemma StartTakesNone(m: Match)
    requires m.Shaped() && !m.corrupt && m.phase != Concluded && m.pending > 0
    ensures NoMore(m, StartTurn(m))
  {
    NewTurnOnlyRemoves(m);
    var m1 := NewTurn(m);
    if m1.remaining >= 2 {
      if m1.alive[m1.cur] {
        StartOpens(m);
      } else {
        ViewsOnlyRemove(m1.(cur := m1.Next()), 0);
      }
    }
  }

  /** The timer of an open turn takes its player out. */
  lemma TimeoutTakes(m: Match)
    requires m.Shaped() && !m.corrupt && m.phase != Concluded && TurnIsOpen(m)
    ensures Enabled(m, TimerFires(m.turnId, true)) && Fewer(m, Step(m, TimerFires(m.turnId, true)))
  {
    var m1 := m.(claimed := true);
    ViewsOnlyRemove(Remove(m1, m.cur), 0);
  }

  /** What a fair match keeps while it is left alone. */
  ghost predicate Going(m: Match) {
    Fair(m) && Live(m)
  }

  lemma ClockIsFair(m: Match, e: Event)
    requires Going(m) && Enabled(m, e) && OnTheClock(e)
    ensures Going(Step(m, e))
  {
    StepIsFairIff(m, e);
    StepIsLive(m, e);
  }

  /** A start_turn that moves the match on: it concludes, or opens a turn, or takes a command. */
  ghost predicate MovesOn(m: Match, m': Match) {
    Going(m') && NoMore(m, m') && (m'.phase == Concluded || Fewer(m, m') || TurnIsOpen(m'))
  }

  lemma NoMoreOn(m: Match, m1: Match, m2: Match)
    requires NoMore(m, m1) && MovesOn(m1, m2)
    ensures MovesOn(m, m2)
  {
  }

  lemma LastStartMovesOn(m: Match)
    requires Going(m) && m.phase != Concluded && m.pending > 0 && OpensOrConcludes(m)
    ensures MovesOn(m, Step(m, RunTurn))
  {
    ClockIsFair(m, RunTurn);
    StartTakesNone(m);
    if Step(m, RunTurn).phase != Concluded {
      StartOpens(m);
    }
  }

  ghost predicate Reaches(m: Match, events: seq<Event>, m': Match)
    requires Sane(m)
  {
    ByTheClock(events) && CanRun(m, events) && After(m, events) == m'
  }

  lemma ReachesOn(m: Match, e: Event, m1: Match, rest: seq<Event>, m2: Match)
    requires Sane(m) && Enabled(m, e) && OnTheClock(e) && m1 == Step(m, e) && Sane(m1) && Reaches(m1, rest, m2)
    ensures Reaches(m, [e] + rest, m2)
  {
    RunOn(m, e, m1, rest);
  }

  lemma ReachesStep(m: Match, e: Event, m1: Match)
    requires Sane(m) && Enabled(m, e) && OnTheClock(e) && m1 == Step(m, e) && Sane(m1)
    ensures Reaches(m, [e], m1)
  {
    assert [e] == [e] + [];
    ReachesOn(m, e, m1, [], m1);
  }

  lemma FirstSkip(skips: seq<Event>, rest: seq<Event>)
    requires skips != [] && OnlyRunTurns(skips) && rest == skips[1..]
    ensures skips[0] == RunTurn && OnlyRunTurns(rest)
  {
    assert skips[0] in skips;
    forall e | e in rest
      ensures e == RunTurn
    {
      assert e in skips;
    }
  }

  lemma EndsOn(m: Match, skips: seq<Event>, m1: Match, rest: seq<Event>)
    requires Sane(m) && Sane(m1) && skips != [] && skips[0] == RunTurn && rest == skips[1..] && EndsAfter(m, skips)
    requires m.pending > 0 && m1 == Step(m, RunTurn)
    ensures EndsAfter(m1, rest)
  {
    var s := After(m, skips);
    assert CanRun(m1, rest) && After(m1, rest) == s;
    assert s.Shaped() && s.phase != Concluded && s.pending > 0 && OpensOrConcludes(s);
  }

  lemma StillPosted(m: Match, skips: seq<Event>)
    requires Sane(m) && OnlyRunTurns(skips) && EndsAfter(m, skips)
    ensures m.pending > 0
  {
    if skips != [] {
      assert skips[0] in skips;
    }
  }

  /** Skips and the start_turn after them move the match on. */
  lemma {:induction false} SkipsMoveOn(m: Match, skips: seq<Event>) returns (events: seq<Event>, m': Match)
    requires Going(m) && m.phase != Concluded && m.pending > 0 && OnlyRunTurns(skips) && EndsAfter(m, skips)
    ensures Reaches(m, events, m') && MovesOn(m, m')
    decreases |skips|
  {
    if skips == [] {
      LastStartMovesOn(m);
      m', events := Step(m, RunTurn), [RunTurn];
      ReachesStep(m, RunTurn, m');
    } else {
      var m1, rest := Step(m, RunTurn), skips[1..];
      FirstSkip(skips, rest);
      ClockIsFair(m, RunTurn);
      EndsOn(m, skips, m1, rest);
      StartTakesNone(m);
      if m1.phase == Concluded {
        m', events := m1, [RunTurn];
        ReachesStep(m, RunTurn, m');
      } else {
        StillPosted(m1, rest);
        events, m' := SkipsMoveOn(m1, rest);
        NoMoreOn(m, m1, m');
        ReachesOn(m, RunTurn, m1, events, m');
        events := [RunTurn] + events;
      }
    }
  }

  /** An open turn times out. */
  lemma TimesOut(m: Match) returns (events: seq<Event>, m': Match)
    requires Going(m) && m.phase != Concluded && TurnIsOpen(m)
    ensures Reaches(m, events, m') && Going(m') && Fewer(m, m')
  {
    TimeoutTakes(m);
    m' := Step(m, TimerFires(m.turnId, true));
    ClockIsFair(m, TimerFires(m.turnId, true));
    events := [TimerFires(m.turnId, true)];
    ReachesStep(m, TimerFires(m.turnId, true), m');
  }

  lemma ReachesTail(m: Match, events: seq<Event>, e: Event, rest: seq<Event>, m': Match)
    requires Sane(m) && Reaches(m, events, m') && events != [] && e == events[0] && rest == events[1..]
    ensures Enabled(m, e) && OnTheClock(e) && Sane(Step(m, e)) && Reaches(Step(m, e), rest, m')
  {
    StepIsSane(m, e);
    forall i | 0 <= i < |rest|
      ensures OnTheClock(rest[i])
    {
      assert rest[i] == events[i + 1];
    }
  }

  lemma ReachesFrom(m: Match, events: seq<Event>, e: Event, rest: seq<Event>, m': Match)
    requires Sane(m) && events != [] && e == events[0] && rest == events[1..] && Enabled(m, e) && OnTheClock(e)
    requires Sane(Step(m, e)) && Reaches(Step(m, e), rest, m')
    ensures Reaches(m, events, m')
  {
    forall i | 0 <= i < |events|
      ensures OnTheClock(events[i])
    {
      assert i > 0 ==> events[i] == rest[i - 1];
    }
  }

  lemma JoinedTail(first: seq<Event>, second: seq<Event>)
    requires first != []
    ensures (first + second)[0] == first[0] && (first + second)[1..] == first[1..] + second
  {
  }

  lemma {:induction false} ReachesThen(m: Match, first: seq<Event>, m1: Match, second: seq<Event>, m2: Match)
    requires Sane(m) && Reaches(m, first, m1) && Sane(m1) && Reaches(m1, second, m2)
    ensures Reaches(m, first + second, m2)
    decreases |first|
  {
    if first == [] {
      assert first + second == second;
    } else {
      var e, rest := first[0], first[1..];
      JoinedTail(first, second);
      ReachesTail(m, first, e, rest, m1);
      ReachesThen(Step(m, e), rest, m1, second, m2);
      ReachesFrom(m, first + second, e, rest + second, m2);
    }
  }

  /** One stage: the match concludes, or a player or a waiting command is gone. */
  lemma Stage(m: Match) returns (events: seq<Event>, m': Match)
    requires Going(m) && m.phase != Concluded
    ensures Reaches(m, events, m') && Going(m') && (m'.phase == Concluded || Fewer(m, m'))
  {
    if m.pending == 0 {
      events, m' := TimesOut(m);
    } else {
      var skips := SkipChainEnds(m);
      var first, m1 := SkipsMoveOn(m, skips);
      events, m' := first, m1;
      if m1.phase != Concluded && !Fewer(m, m1) {
        var second;
        second, m' := TimesOut(m1);
        ReachesThen(m, first, m1, second, m');
        events := first + second;
      }
    }
  }

  /** A match nobody commands any more concludes by posted start_turns and expiring timers alone, from
      every fair state of every run, and ranks all its players. */
  lemma {:induction false} LeftAloneConcludes(m: Match) returns (events: seq<Event>)
    requires Going(m)
    ensures ByTheClock(events) && CanRun(m, events) && Fair(After(m, events)) && After(m, events).phase == Concluded
    decreases m.remaining, Waiting(m.queues)
  {
    if m.phase == Concluded {
      events := [];
    } else {
      var first, m1 := Stage(m);
      var second := [];
      if m1.phase != Concluded {
        second := LeftAloneConcludes(m1);
      }
      ReachesThen(m, first, m1, second, After(m1, second));
      events := first + second;
    }
  }

  /** So every run from the start in which no placement slips in can still be concluded by the clock. */
  lemma FairRunCanConclude(m: Match, events: seq<Event>) returns (more: seq<Event>)
    requires Initial(m) && Sane(m) && CanRun(m, events) && NoSlip(m, events)
    ensures Sane(After(m, events)) && ByTheClock(more) && CanRun(After(m, events), more)
    ensures After(After(m, events), more).phase == Concluded
  {
    InitialIsFair(m);
    RunIsFairIff(m, events);
    RunIsLive(m, events);
    more := LeftAloneConcludes(After(m, events));
  }
}
