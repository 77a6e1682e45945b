/** What every run of a match keeps, under every interleaving of commands, timeouts and forfeits. */
module Ledger {
  import opened Basics
  import opened Boards
  import opened Commands
  import opened Matches

  /** The number of players still alive. */
  function Count(alive: seq<bool>): nat {
    if alive == [] then 0 else Count(alive[..|alive| - 1]) + (if alive[|alive| - 1] then 1 else 0)
  }

  lemma {:induction false} CountFall(alive: seq<bool>, p: nat)
    requires p < |alive| && alive[p]
    ensures Count(alive[p := false]) == Count(alive) - 1
  {
    var n := |alive| - 1;
    if p == n {
      assert alive[p := false][..n] == alive[..n];
    } else {
      assert alive[p := false][..n] == alive[..n][p := false];
      CountFall(alive[..n], p);
    }
  }

  lemma {:induction false} CountAll(alive: seq<bool>)
    ensures Count(alive) <= |alive|
    ensures (forall p :: 0 <= p < |alive| ==> alive[p]) ==> Count(alive) == |alive|
    ensures Count(alive) == 0 ==> forall p :: 0 <= p < |alive| ==> !alive[p]
  {
    if alive != [] {
      CountAll(alive[..|alive| - 1]);
      assert forall p :: 0 <= p < |alive| - 1 ==> alive[..|alive| - 1][p] == alive[p];
    }
  }

  lemma {:induction false} CountOne(alive: seq<bool>, p: nat, q: nat)
    requires p < q < |alive| && alive[p] && alive[q]
    ensures Count(alive) >= 2
  {
    CountFall(alive, q);
    CountFall(alive[q := false], p);
  }

  /** The dead hold distinct ranks 0 .. elim - 1, and the counters count them. */
  ghost predicate Ledger(m: Match) {
    && |m.order| == |m.alive|
    && m.remaining == Count(m.alive)
    && m.elim == |m.alive| - m.remaining
    && (forall p {:trigger m.order[p]} :: 0 <= p < |m.alive| && !m.alive[p] ==> 0 <= m.order[p] < m.elim)
    && (forall p, q {:trigger m.order[p], m.order[q]} ::
         0 <= p < q < |m.alive| && !m.alive[p] && !m.alive[q] ==> m.order[p] != m.order[q])
  }

  lemma FallKeepsLedger(m: Match, p: nat)
    requires Ledger(m) && p < |m.alive| && m.alive[p]
    ensures Ledger(Fall(m, p))
  {
    CountAll(m.alive);
    CountFall(m.alive, p);
  }

  lemma {:induction false} ViewsKeepLedger(m: Match, i: nat)
    requires m.Shaped() && Ledger(m)
    ensures Ledger(Views(m, i))
    decreases |m.alive| - i
  {
    if i < |m.alive| {
      if m.alive[i] {
        FallKeepsLedger(m, i);
      }
      ViewsKeepLedger(ViewOf(m, i), i + 1);
    }
  }

  /** A ranking of all players, 0 for the first one out. */
  ghost predicate IsPermutation(order: seq<int>) {
    && (forall p {:trigger order[p]} :: 0 <= p < |order| ==> 0 <= order[p] < |order|)
    && (forall p, q {:trigger order[p], order[q]} :: 0 <= p < q < |order| ==> order[p] != order[q])
  }

  /** All placements come before all other commands. */
  ghost predicate PlacedFirst(history: seq<CommandHead>, s: nat) {
    && s <= |history|
    && (forall i :: 0 <= i < s ==> history[i].kind == Place)
    && (forall i :: s <= i < |history| ==> history[i].kind != Place)
  }

  /** In play, a player marked alive owns a live tank. */
  ghost predicate AliveMeansArmed(m: Match)
    requires m.Shaped()
  {
    m.phase == Play ==> forall p {:trigger m.alive[p]} :: 0 <= p < |m.alive| && m.alive[p] ==> LiveTanks(m.board, p) > 0
  }

  ghost predicate TimersPast(m: Match) {
    m.armed.Some? ==> m.armed.value.1 <= m.turnId && (m.phase == Concluded ==> m.armed.value.1 < m.turnId)
  }

  ghost predicate Blocks(m: Match) {
    (m.phase == Setup ==> PlacedFirst(m.history, |m.history|)) && exists s: nat :: PlacedFirst(m.history, s)
  }

  ghost predicate Sane(m: Match) {
    && m.Shaped()
    && Ledger(m)
    && AliveMeansArmed(m)
    && TimersPast(m)
    && Blocks(m)
    && (m.phase == Concluded ==> m.remaining <= 1 && IsPermutation(m.order) && WinnerIsFirst(m))
  }

  /** Whoever is left alive holds the best rank. */
  ghost predicate WinnerIsFirst(m: Match)
    requires |m.order| == |m.alive|
  {
    forall p {:trigger m.order[p]} :: 0 <= p < |m.alive| && m.alive[p] ==> m.order[p] == |m.alive| - 1
  }

  /** All of Sane that compute_all_views needs to find to establish the rest. */
  ghost predicate Unviewed(m: Match) {
    m.Shaped() && Ledger(m) && TimersPast(m) && Blocks(m) && m.phase != Concluded
  }

  /** compute_all_views re-establishes "alive means armed" whatever happened to the board. */
  lemma ViewsAreSane(m: Match)
    requires Unviewed(m)
    ensures Sane(Views(m, 0)) && Sane(Post(Views(m, 0)))
  {
    ViewsKeepLedger(m, 0);
    ViewsDrop(m, 0);
  }

  lemma InitialIsSane(m: Match)
    requires Initial(m)
    ensures Sane(m)
  {
    CountAll(m.alive);
    assert PlacedFirst(m.history, 0);
  }

  lemma ConcludeIsSane(m: Match)
    requires m.Shaped() && Ledger(m) && Blocks(m) && m.remaining <= 1
    requires m.armed.Some? ==> m.armed.value.1 < m.turnId
    ensures Sane(Conclude(m))
  {
    CountAll(m.alive);
    forall p, q | 0 <= p < q < |m.alive|
      ensures !m.alive[p] || !m.alive[q]
    {
      if m.alive[p] && m.alive[q] {
        CountOne(m.alive, p, q);
      }
    }
    assert m.elim == |m.alive| - 1 || forall p :: 0 <= p < |m.alive| ==> !m.alive[p];
  }

  lemma RemoveIsUnviewed(m: Match, p: nat)
    requires Unviewed(m) && p < |m.alive| && m.alive[p]
    ensures Unviewed(Remove(m, p))
  {
    FallKeepsLedger(m, p);
  }

  lemma CutIsSane(m: Match)
    requires Sane(m) && m.phase != Concluded
    ensures Sane(Post(CutTurn(m))) && Sane(Post(m))
  {
  }

  lemma EliminationIsSane(m: Match, p: nat)
    requires Sane(m) && m.phase != Concluded && p < |m.alive|
    ensures Sane(HandleElimination(m, p))
  {
    if m.alive[p] {
      RemoveIsUnviewed(m, p);
      ViewsAreSane(Remove(m, p));
      CutIsSane(Views(Remove(m, p), 0));
    }
  }

  /** Placements are accepted in setup only, everything else in play only. */
  lemma AcceptedKind(b: Board, setup: bool, c: CommandHead)
    requires Ready(b) && ServerApply(b, setup, c).Applied?
    ensures setup <==> c.kind == Place
  {
  }

  lemma RecordIsUnviewed(m: Match, c: CommandHead, b: Board)
    requires Unviewed(m) && Ready(b) && SameMap(m.board, b)
    requires m.phase == Setup <==> c.kind == Place
    ensures Unviewed(Record(m, c, b))
  {
    BlocksGrow(m.history, c);
    var m1 := Record(m, c, b);
    assert Ledger(m1) && TimersPast(m1);
  }

  lemma BlocksGrow(history: seq<CommandHead>, c: CommandHead)
    requires exists s: nat :: PlacedFirst(history, s)
    ensures PlacedFirst(history, |history|) && c.kind == Place ==> PlacedFirst(history + [c], |history + [c]|)
    ensures c.kind != Place ==> exists s: nat :: PlacedFirst(history + [c], s)
  {
    var s: nat :| PlacedFirst(history, s);
    if c.kind != Place {
      assert PlacedFirst(history + [c], s);
    }
  }

  lemma AppliedIsSane(m: Match, c: CommandHead)
    requires Unviewed(m) && ServerApply(m.board, m.phase == Setup, c).Applied?
    ensures Sane(Accept(m, c))
  {
    var b := ServerApply(m.board, m.phase == Setup, c).board;
    AcceptedKind(m.board, m.phase == Setup, c);
    ServerKeepsBoard(m.board, m.phase == Setup, c);
    RecordIsUnviewed(m, c, b);
    ViewsAreSane(Record(m, c, b));
  }

  lemma AcceptIsSane(m: Match, c: CommandHead)
    requires Sane(m) && m.phase != Concluded
    ensures Sane(Accept(m, c))
  {
    if ServerApply(m.board, m.phase == Setup, c).Applied? {
      AppliedIsSane(m, c);
    }
  }

  lemma MoveArrivedIsSane(m: Match, t: nat)
    requires Sane(m) && m.phase != Concluded
    ensures Sane(MoveArrived(m, t))
  {
    if t == m.turnId && !m.claimed && m.queues[m.cur] != [] {
      var i := Top(m.queues[m.cur]);
      AcceptIsSane(m.(claimed := true, queues := m.queues[m.cur := Without(m.queues[m.cur], i)]),
                   m.queues[m.cur][i].head);
    }
  }

  lemma NewTurnIsSane(m: Match)
    requires Sane(m) && m.pending > 0
    ensures Sane(NewTurn(m)) && (m.armed.Some? ==> m.armed.value.1 < NewTurn(m).turnId)
    ensures NewTurn(m).armed == m.armed
  {
    if SetupOver(m) {
      ViewsAreSane(m.(pending := m.pending - 1, turnId := m.turnId + 1, claimed := false,
                      phase := Play, cur := 0, fuel := TURN_PLAYER_FUEL));
    } else {
      NextTurnIsSane(m);
    }
  }

  lemma NextTurnIsSane(m: Match)
    requires Sane(m) && m.pending > 0
    ensures Sane(m.(pending := m.pending - 1, turnId := m.turnId + 1, claimed := false))
  {
  }

  lemma StartTurnIsSane(m: Match)
    requires Sane(m) && m.pending > 0
    ensures Sane(StartTurn(m))
  {
    NewTurnIsSane(m);
    var m1 := NewTurn(m);
    if m1.remaining <= 1 {
      ConcludeIsSane(m1);
    } else if !m1.alive[m1.cur] {
      ViewsAreSane(m1.(cur := m1.Next()));
    } else {
      var m2 := m1.(armed := Some((m1.cur, m1.turnId)));
      if m2.queues[m2.cur] != [] {
        MoveArrivedIsSane(m2, m2.turnId);
      }
    }
  }

  lemma DeliveryIsSane(m: Match, p: nat, c: Command, t: nat)
    requires Sane(m) && !m.corrupt && m.phase != Concluded && p < |m.alive|
    ensures Sane(Step(m, Deliver(p, c, t)))
  {
    if t == m.turnId && |m.queues[p]| < MAX_QUEUE_SIZE {
      MoveArrivedIsSane(m.(queues := m.queues[p := m.queues[p] + [c.(head := c.head.(sender := p))]]), t);
    }
  }

  /** Every handler keeps the ledger, "alive means armed" and the shape of the history. */
  lemma StepIsSane(m: Match, e: Event)
    requires Sane(m) && Enabled(m, e)
    ensures Sane(Step(m, e))
  {
    if !m.corrupt {
      match e
      case RunTurn => StartTurnIsSane(m);
      case Deliver(p, c, t) =>
        if p < |m.alive| && m.phase != Concluded {
          DeliveryIsSane(m, p, c, t);
        }
      case TimerFires(t, expired) =>
        if t == m.turnId && !m.claimed && expired {
          EliminationIsSane(m.(claimed := true), m.cur);
        }
      case Forfeit(p) =>
        if p < |m.alive| && m.phase != Concluded {
          EliminationIsSane(m, p);
        }
      case Sync(p) =>
    }
  }

  // ---------------------------------------------------------------- runs

  /** A run is a list of events each of which is enabled when its turn comes. */
  ghost predicate CanRun(m: Match, events: seq<Event>)
    requires Sane(m)
    decreases |events|
  {
    events == [] || (Enabled(m, events[0]) && (StepIsSane(m, events[0]); CanRun(Step(m, events[0]), events[1..])))
  }

  ghost function After(m: Match, events: seq<Event>): Match
    requires Sane(m) && CanRun(m, events)
    decreases |events|
  {
    if events == [] then m
    else
      StepIsSane(m, events[0]);
      After(Step(m, events[0]), events[1..])
  }

  /** A run, and then one event. */
  lemma {:induction false} RunThen(m: Match, events: seq<Event>, e: Event)
    requires Sane(m) && CanRun(m, events) && Sane(After(m, events)) && Enabled(After(m, events), e)
    ensures CanRun(m, events + [e]) && After(m, events + [e]) == Step(After(m, events), e)
    decreases |events|
  {
    var longer := events + [e];
    if events == [] {
      StepIsSane(m, e);
      assert longer[0] == e && longer[1..] == [];
    } else {
      StepIsSane(m, events[0]);
      RunThen(Step(m, events[0]), events[1..], e);
      assert longer[0] == events[0] && longer[1..] == events[1..] + [e];
    }
  }

  /** One event, and then the rest of the run. */
  lemma RunOn(m: Match, e: Event, m': Match, rest: seq<Event>)
    requires Sane(m) && Enabled(m, e) && m' == Step(m, e) && Sane(m') && CanRun(m', rest)
    ensures CanRun(m, [e] + rest) && After(m, [e] + rest) == After(m', rest)
  {
    assert ([e] + rest)[1..] == rest;
  }

  /** In every state of every run the counters agree with the number of living players, the dead
      hold the ranks 0 .. elim - 1 once each, a living player in play owns a live tank, placements
      come first, and a concluded match has ranked all its players, also when nobody is left. */
  lemma {:induction false} RunIsSane(m: Match, events: seq<Event>)
    requires Sane(m) && CanRun(m, events)
    ensures Sane(After(m, events))
    decreases |events|
  {
    if events != [] {
      StepIsSane(m, events[0]);
      RunIsSane(Step(m, events[0]), events[1..]);
    }
  }

  /** When a match concludes, elimination_order ranks all its players. */
  lemma ConclusionRanksEveryone(m: Match, events: seq<Event>)
    requires Initial(m)
    ensures Sane(m)
    ensures CanRun(m, events) && After(m, events).phase == Concluded ==> IsPermutation(After(m, events).order)
  {
    InitialIsSane(m);
    if CanRun(m, events) {
      RunIsSane(m, events);
    }
  }

  // ---------------------------------------------------------------- skips

  function Seat(n: nat, cur: nat, d: nat): (p: nat)
    requires cur < n && d < n
    ensures p < n
  {
    if cur + d < n then cur + d else cur + d - n
  }

  /** When everyone marked alive is armed, compute_all_views changes nothing. */
  lemma {:induction false} ViewsIdle(m: Match, i: nat)
    requires m.Shaped() && AliveMeansArmed(m) && m.phase != Concluded
    ensures Views(m, i) == m
    decreases |m.alive| - i
  {
    if i < |m.alive| {
      ViewsIdle(m, i + 1);
    }
  }

  /** A match that goes on: not decided, two or more players left, a start_turn posted. */
  ghost predicate GoesOn(m: Match) {
    Sane(m) && !m.corrupt && m.phase != Concluded && m.remaining >= 2 && m.pending > 0 && !SetupOver(m)
  }

  /** The state after d skips. */
  function Skipped(m: Match, d: nat): Match
    requires m.cur < |m.alive| && d < |m.alive|
  {
    m.(turnId := m.turnId + d, claimed := m.claimed && d == 0, cur := Seat(|m.alive|, m.cur, d))
  }

  lemma SkippedTurn(m: Match)
    requires m.Shaped() && AliveMeansArmed(m) && m.phase != Concluded && m.remaining >= 2 && m.pending > 0
    requires !SetupOver(m) && !m.alive[m.cur]
    ensures StartTurn(m) == m.(turnId := m.turnId + 1, claimed := false, cur := m.Next())
  {
    var m1 := m.(pending := m.pending - 1, turnId := m.turnId + 1, claimed := false);
    ViewsIdle(m1.(cur := m1.Next()), 0);
  }

  lemma SkippedGoesOn(m: Match, d: nat)
    requires GoesOn(m) && d < |m.alive|
    ensures GoesOn(Skipped(m, d))
  {
    var m1 := Skipped(m, d);
    assert m1.phase == m.phase && m1.history == m.history && m1.order == m.order && m1.alive == m.alive;
  }

  lemma SkipStep(m: Match)
    requires GoesOn(m) && !m.alive[m.cur]
    ensures Step(m, RunTurn) == Skipped(m, 1)
  {
    SkippedTurn(m);
    assert m.Next() == Seat(|m.alive|, m.cur, 1);
  }

  function RunTurns(d: nat): seq<Event> {
    if d == 0 then [] else [RunTurn] + RunTurns(d - 1)
  }

  lemma {:induction false} SkipsReach(m: Match, d: nat)
    requires GoesOn(m) && d < |m.alive|
    requires forall j :: 0 <= j < d ==> !m.alive[Seat(|m.alive|, m.cur, j)]
    ensures CanRun(m, RunTurns(d)) && After(m, RunTurns(d)) == Skipped(m, d) && GoesOn(Skipped(m, d))
    decreases d
  {
    if d > 0 {
      assert Seat(|m.alive|, m.cur, 0) == m.cur;
      SkipStep(m);
      SkippedGoesOn(m, 1);
      var m1 := Skipped(m, 1);
      assert forall j :: 0 <= j < d ==> Seat(|m.alive|, m1.cur, j) == Seat(|m.alive|, m.cur, j + 1);
      SkipsReach(m1, d - 1);
      assert RunTurns(d)[0] == RunTurn && RunTurns(d)[1..] == RunTurns(d - 1);
      assert Skipped(m1, d - 1) == Skipped(m, d);
    }
  }

  /** The next start_turn ends the match or opens the turn of a living player. */
  ghost predicate OpensOrConcludes(m: Match)
    requires m.Shaped() && m.pending > 0
  {
    var m1 := NewTurn(m);
    Step(m, RunTurn).phase == Concluded ||
    (m1.alive[m1.cur] && Step(m, RunTurn).armed == Some((m1.cur, m.turnId + 1)))
  }

  lemma OpeningStep(m: Match)
    requires m.Shaped() && m.pending > 0 && !m.corrupt
    requires NewTurn(m).remaining <= 1 || NewTurn(m).alive[NewTurn(m).cur]
    ensures OpensOrConcludes(m)
  {
  }

  /** After these events the next start_turn settles it. */
  ghost predicate EndsAfter(m: Match, events: seq<Event>)
    requires Sane(m)
  {
    CanRun(m, events) && var s := After(m, events);
    s.Shaped() && s.phase != Concluded && s.pending > 0 && OpensOrConcludes(s)
  }

  predicate OnlyRunTurns(events: seq<Event>) {
    forall e :: e in events ==> e == RunTurn
  }

  lemma {:induction false} RunTurnsOnly(d: nat)
    ensures |RunTurns(d)| == d && OnlyRunTurns(RunTurns(d))
  {
    if d > 0 {
      RunTurnsOnly(d - 1);
    }
  }

  /** With two or more players left, and setup not just over, the skips end at the first living player. */
  lemma SkipsToLiving(m: Match) returns (events: seq<Event>)
    requires GoesOn(m)
    ensures OnlyRunTurns(events) && |events| < |m.alive| && m.alive[Seat(|m.alive|, m.cur, |events|)]
    ensures EndsAfter(m, events)
  {
    CountNone(m.alive);
    var p :| 0 <= p < |m.alive| && m.alive[p];
    var d := FirstAlive(m.alive, m.cur, p);
    RunTurnsOnly(d);
    SkipsReach(m, d);
    OpeningStep(Skipped(m, d));
    events := RunTurns(d);
  }

  lemma EndsLater(m: Match, m1: Match, events: seq<Event>)
    requires Sane(m) && m.pending > 0 && m1 == Step(m, RunTurn) && Sane(m1) && EndsAfter(m1, events)
    ensures EndsAfter(m, [RunTurn] + events)
  {
    RunOn(m, RunTurn, m1, events);
  }

  /** The start_turn that ends setup while the first player is dead moves on to the second one. */
  lemma SetupEndsOnTheDead(m: Match)
    requires Sane(m) && !m.corrupt && m.pending > 0 && SetupOver(m)
    requires NewTurn(m).remaining >= 2 && !NewTurn(m).alive[0]
    ensures var m1 := Step(m, RunTurn); GoesOn(m1) && m1.cur == 1 && !m1.alive[0] && |m1.alive| == |m.alive|
  {
    NewTurnIsSane(m);
    var m1 := NewTurn(m);
    ViewsIdle(m1.(cur := m1.Next()), 0);
    StepIsSane(m, RunTurn);
  }

  lemma NotTheDeadAgain(alive: seq<bool>, d: nat)
    requires 2 <= |alive| && d < |alive| && !alive[0] && alive[Seat(|alive|, 1, d)]
    ensures d + 1 < |alive|
  {
  }

  lemma EndsFromSecond(m: Match) returns (events: seq<Event>)
    requires GoesOn(m) && m.cur == 1 && !m.alive[0]
    ensures OnlyRunTurns(events) && |events| + 1 < |m.alive| && EndsAfter(m, events)
  {
    events := SkipsToLiving(m);
    NotTheDeadAgain(m.alive, |events|);
  }

  lemma EndsPastTheDead(m: Match, m1: Match) returns (events: seq<Event>)
    requires Sane(m) && m.pending > 0 && m1 == Step(m, RunTurn) && |m1.alive| == |m.alive|
    requires GoesOn(m1) && m1.cur == 1 && !m1.alive[0]
    ensures OnlyRunTurns(events) && |events| < |m.alive| && EndsAfter(m, events)
  {
    var rest := EndsFromSecond(m1);
    EndsLater(m, m1, rest);
    events := [RunTurn] + rest;
  }

  lemma EndsNow(m: Match)
    requires Sane(m) && !m.corrupt && m.phase != Concluded && m.pending > 0
    requires NewTurn(m).remaining <= 1 || (SetupOver(m) && NewTurn(m).alive[0])
    ensures EndsAfter(m, [])
  {
    OpeningStep(m);
  }

  lemma PlainTurnGoesOn(m: Match)
    requires Sane(m) && !m.corrupt && m.phase != Concluded && m.pending > 0
    requires NewTurn(m).remaining > 1 && !SetupOver(m)
    ensures GoesOn(m)
  {
  }

  /** Wherever a running match has a start_turn posted, fewer than n skips follow, and then a start_turn
      that ends the match or opens the turn of a living player. */
  lemma SkipChainEnds(m: Match) returns (skips: seq<Event>)
    requires Sane(m) && !m.corrupt && m.phase != Concluded && m.pending > 0
    ensures OnlyRunTurns(skips) && |skips| < |m.alive| && EndsAfter(m, skips)
  {
    if NewTurn(m).remaining <= 1 || (SetupOver(m) && NewTurn(m).alive[0]) {
      EndsNow(m);
      skips := [];
    } else if SetupOver(m) {
      SetupEndsOnTheDead(m);
      skips := EndsPastTheDead(m, Step(m, RunTurn));
    } else {
      PlainTurnGoesOn(m);
      skips := SkipsToLiving(m);
    }
  }

  lemma FirstAlive(alive: seq<bool>, cur: nat, p: nat) returns (d: nat)
    requires cur < |alive| && p < |alive| && alive[p]
    ensures d < |alive| && alive[Seat(|alive|, cur, d)]
    ensures forall j :: 0 <= j < d ==> !alive[Seat(|alive|, cur, j)]
  {
    var n := |alive|;
    var far := if p >= cur then p - cur else p + n - cur;
    assert Seat(n, cur, far) == p;
    d := 0;
    while !alive[Seat(n, cur, d)]
      invariant d <= far && forall j :: 0 <= j < d ==> !alive[Seat(n, cur, j)]
      decreases far - d
    {
      d := d + 1;
    }
  }

  lemma {:induction false} CountNone(alive: seq<bool>)
    requires Count(alive) > 0
    ensures exists p :: 0 <= p < |alive| && alive[p]
  {
    var n := |alive| - 1;
    if !alive[n] {
      CountNone(alive[..n]);
      var p :| 0 <= p < n && alive[..n][p];
      assert alive[p];
    }
  }
}
