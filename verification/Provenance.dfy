/** Where the commands of a history come from: each was delivered by its own sender, is executed at most
    once, and was the best one waiting; a reconnect or an elimination forgets what was waiting. */
module Provenance {
  import opened Basics
  import opened Commands
  import opened Matches
  import opened Ledger
  import opened Rankings

  // ---------------------------------------------------------------- counting commands

  function One(h: CommandHead, c: CommandHead): nat {
    if h == c then 1 else 0
  }

  /** How often command c waits in a queue. */
  function InQueue(queue: seq<Command>, c: CommandHead): nat {
    if queue == [] then 0 else InQueue(queue[..|queue| - 1], c) + One(queue[|queue| - 1].head, c)
  }

  lemma InQueueNext(queue: seq<Command>, x: Command, c: CommandHead)
    ensures InQueue(queue + [x], c) == InQueue(queue, c) + One(x.head, c)
  {
    assert (queue + [x])[..|queue|] == queue;
  }

  lemma {:induction false} InQueueWithout(queue: seq<Command>, i: nat, c: CommandHead)
    requires i < |queue|
    ensures InQueue(queue, c) == InQueue(Without(queue, i), c) + One(queue[i].head, c)
    decreases |queue|
  {
    var n := |queue| - 1;
    if i == n {
      assert Without(queue, i) == queue[..n];
    } else {
      InQueueWithout(queue[..n], i, c);
      assert Without(queue, i) == Without(queue[..n], i) + [queue[n]];
      InQueueNext(Without(queue[..n], i), queue[n], c);
    }
  }

  /** And in all queues. */
  function Waiting(queues: seq<seq<Command>>, c: CommandHead): nat {
    if queues == [] then 0 else Waiting(queues[..|queues| - 1], c) + InQueue(queues[|queues| - 1], c)
  }

  lemma {:induction false} WaitingChanges(queues: seq<seq<Command>>, i: nat, queue: seq<Command>, c: CommandHead)
    requires i < |queues|
    ensures Waiting(queues[i := queue], c) + InQueue(queues[i], c) == Waiting(queues, c) + InQueue(queue, c)
  {
    var n := |queues| - 1;
    if i == n {
      assert queues[i := queue][..n] == queues[..n];
    } else {
      assert queues[i := queue][..n] == queues[..n][i := queue];
      WaitingChanges(queues[..n], i, queue, c);
    }
  }

  function Executed(history: seq<CommandHead>, c: CommandHead): nat {
    multiset(history)[c]
  }

  /** Executed, or still waiting to be. */
  function Held(m: Match, c: CommandHead): nat {
    Executed(m.history, c) + Waiting(m.queues, c)
  }

  /** Whether the event brings command c of an n-player match, in the name of whoever delivers it. */
  function Brought(n: nat, e: Event, c: CommandHead): nat {
    if e.Deliver? && e.player < n && n < 256 then One(e.command.head.(sender := e.player), c) else 0
  }

  function Delivered(n: nat, events: seq<Event>, c: CommandHead): nat
    decreases |events|
  {
    if events == [] then 0 else Brought(n, events[0], c) + Delivered(n, events[1..], c)
  }

  // ---------------------------------------------------------------- one step

  lemma AcceptHolds(m: Match, c: CommandHead)
    requires m.Shaped()
    ensures Accept(m, c).queues == m.queues
    ensures Accept(m, c).history == m.history || Accept(m, c).history == m.history + [c]
  {
  }

  lemma TakenOnce(history: seq<CommandHead>, history': seq<CommandHead>, queues: seq<seq<Command>>,
                  p: nat, i: nat, c: CommandHead)
    requires p < |queues| && i < |queues[p]|
    requires history' == history || history' == history + [queues[p][i].head]
    ensures Executed(history', c) + Waiting(queues[p := Without(queues[p], i)], c) <=
            Executed(history, c) + Waiting(queues, c)
  {
    WaitingChanges(queues, p, Without(queues[p], i), c);
    InQueueWithout(queues[p], i, c);
  }

  /** The best of the current player's waiting commands is taken and, if it is accepted, recorded; the
      others go on waiting. */
  lemma ArrivalTakesBest(m: Match, t: nat) returns (i: nat)
    requires m.Shaped() && t == m.turnId && !m.claimed && m.phase != Concluded && m.queues[m.cur] != []
    ensures i < |m.queues[m.cur]|
    ensures var m', queue := MoveArrived(m, t), m.queues[m.cur];
            && (forall j :: 0 <= j < |queue| ==> queue[i].sequence <= queue[j].sequence)
            && m'.queues == m.queues[m.cur := queue[..i] + queue[i + 1..]]
            && (m'.history == m.history || m'.history == m.history + [queue[i].head])
  {
    i := Top(m.queues[m.cur]);
    AcceptHolds(m.(claimed := true, queues := m.queues[m.cur := Without(m.queues[m.cur], i)]),
                m.queues[m.cur][i].head);
  }

  lemma ArrivalHolds(m: Match, t: nat, c: CommandHead)
    requires m.Shaped()
    ensures Held(MoveArrived(m, t), c) <= Held(m, c)
  {
    if t == m.turnId && !m.claimed && m.phase != Concluded && m.queues[m.cur] != [] {
      var i := ArrivalTakesBest(m, t);
      TakenOnce(m.history, MoveArrived(m, t).history, m.queues, m.cur, i, c);
    }
  }

  lemma ForgottenHolds(m: Match, p: nat, m': Match, c: CommandHead)
    requires p < |m.queues| && m'.history == m.history && m'.queues == m.queues[p := []]
    ensures Held(m', c) <= Held(m, c)
  {
    WaitingChanges(m.queues, p, [], c);
  }

  /** An elimination records nothing and drops what the player had waiting. */
  lemma EliminationForgets(m: Match, p: nat)
    requires m.Shaped() && p < |m.alive| && m.alive[p]
    ensures HandleElimination(m, p).history == m.history && HandleElimination(m, p).queues == m.queues[p := []]
  {
  }

  lemma StartHolds(m: Match, c: CommandHead)
    requires m.Shaped() && m.pending > 0
    ensures Held(StartTurn(m), c) <= Held(m, c)
  {
    var m1 := NewTurn(m);
    assert m1.history == m.history && m1.queues == m.queues;
    if m1.remaining >= 2 && m1.alive[m1.cur] {
      ArrivalHolds(m1.(armed := Some((m1.cur, m1.turnId))), m1.turnId, c);
    }
  }

  lemma QueuedHolds(m: Match, p: nat, x: Command, m1: Match, c: CommandHead)
    requires p < |m.queues| && m1.history == m.history && m1.queues == m.queues[p := m.queues[p] + [x]]
    ensures Held(m1, c) == Held(m, c) + One(x.head, c)
  {
    WaitingChanges(m.queues, p, m.queues[p] + [x], c);
    InQueueNext(m.queues[p], x, c);
  }

  lemma DeliveryHolds(m: Match, p: nat, x: Command, t: nat, c: CommandHead)
    requires m.Shaped()
    ensures Held(Step(m, Deliver(p, x, t)), c) <= Held(m, c) + Brought(|m.alive|, Deliver(p, x, t), c)
  {
    if !m.corrupt && p < |m.alive| && m.phase != Concluded && t == m.turnId && |m.queues[p]| < MAX_QUEUE_SIZE {
      var mine := x.(head := x.head.(sender := p));
      var m1 := m.(queues := m.queues[p := m.queues[p] + [mine]]);
      QueuedHolds(m, p, mine, m1, c);
      if p == m.cur {
        ArrivalHolds(m1, t, c);
      }
    }
  }

  /** What has been executed or waits never grows by more than the command delivered. */
  lemma StepHolds(m: Match, e: Event, c: CommandHead)
    requires m.Shaped() && Enabled(m, e)
    ensures Held(Step(m, e), c) <= Held(m, c) + Brought(|m.alive|, e, c)
  {
    if !m.corrupt {
      match e
      case RunTurn => StartHolds(m, c);
      case Deliver(p, x, t) => DeliveryHolds(m, p, x, t, c);
      case TimerFires(t, expired) =>
        if t == m.turnId && !m.claimed && expired && m.alive[m.cur] {
          EliminationForgets(m.(claimed := true), m.cur);
          ForgottenHolds(m, m.cur, Step(m, e), c);
        }
      case Forfeit(p) =>
        if p < |m.alive| && m.phase != Concluded && m.alive[p] {
          EliminationForgets(m, p);
          ForgottenHolds(m, p, Step(m, e), c);
        }
      case Sync(p) =>
        if p < |m.alive| && m.phase != Concluded {
          ForgottenHolds(m, p, Step(m, e), c);
        }
    }
  }

  // ---------------------------------------------------------------- runs

  lemma {:induction false} RunHolds(m: Match, events: seq<Event>, c: CommandHead)
    requires Sane(m) && CanRun(m, events)
    ensures Held(After(m, events), c) <= Held(m, c) + Delivered(|m.alive|, events, c)
    decreases |events|
  {
    if events != [] {
      StepIsSane(m, events[0]);
      StepHolds(m, events[0], c);
      StepKeepsRanks(m, events[0]);
      RunHolds(Step(m, events[0]), events[1..], c);
    }
  }

  lemma {:induction false} NoneInQueue(queue: seq<Command>, player: nat, c: CommandHead)
    requires SentBy(queue, player) && c.sender != player
    ensures InQueue(queue, c) == 0
  {
    if queue != [] {
      assert queue[|queue| - 1] in queue;
      NoneInQueue(queue[..|queue| - 1], player, c);
    }
  }

  /** A player with an empty queue has no command waiting anywhere. */
  lemma {:induction false} NoneWaits(queues: seq<seq<Command>>, c: CommandHead)
    requires forall p :: 0 <= p < |queues| ==> SentBy(queues[p], p)
    requires forall p :: 0 <= p < |queues| && p == c.sender ==> queues[p] == []
    ensures Waiting(queues, c) == 0
  {
    if queues != [] {
      var n := |queues| - 1;
      NoneWaits(queues[..n], c);
      if n != c.sender {
        NoneInQueue(queues[n], n, c);
      }
    }
  }

  /** While a player has nothing waiting, whatever is executed in the player's name from then on is
      delivered by that player from then on, and no delivery is executed twice. */
  lemma NewCommandsAreDelivered(m: Match, events: seq<Event>, c: CommandHead)
    requires Sane(m) && CanRun(m, events) && (c.sender < |m.queues| ==> m.queues[c.sender] == [])
    ensures multiset(After(m, events).history)[c] <= multiset(m.history)[c] + Delivered(|m.alive|, events, c)
  {
    RunHolds(m, events, c);
    NoneWaits(m.queues, c);
  }

  /** So every command in the history of a match was delivered by its sender, as often as it is there. */
  lemma HistoryIsDelivered(m: Match, events: seq<Event>, c: CommandHead)
    requires Initial(m) && Sane(m) && CanRun(m, events)
    ensures multiset(After(m, events).history)[c] <= Delivered(|m.alive|, events, c)
  {
    NewCommandsAreDelivered(m, events, c);
  }

  /** A reconnect drops what waits, and an elimination too. */
  predicate Drops(m: Match, e: Event, p: nat) {
    p < |m.alive| && m.phase != Concluded && (e == Sync(p) || (e == Forfeit(p) && m.alive[p]))
  }

  /** Nothing a player sent before a reconnect or a forfeit is executed after it. */
  lemma DroppedIsForgotten(m: Match, e: Event, m1: Match, events: seq<Event>, c: CommandHead)
    requires Sane(m) && !m.corrupt && Drops(m, e, c.sender) && m1 == Step(m, e) && Sane(m1) && CanRun(m1, events)
    ensures multiset(After(m1, events).history)[c] <= multiset(m.history)[c] + Delivered(|m1.alive|, events, c)
  {
    if e.Forfeit? {
      EliminationForgets(m, c.sender);
    }
    NewCommandsAreDelivered(m1, events, c);
  }

  // ---------------------------------------------------------------- one command a turn

  /** Each start_turn lets at most one command in, and at most eight wait in a queue. */
  ghost predicate Paced(m: Match) {
    && |m.history| <= m.turnId + (if m.claimed then 1 else 0)
    && forall p {:trigger m.queues[p]} :: 0 <= p < |m.queues| ==> |m.queues[p]| <= 8
  }

  lemma ArrivalIsPaced(m: Match, t: nat)
    requires m.Shaped() && Paced(m)
    ensures Paced(MoveArrived(m, t))
  {
    if t == m.turnId && !m.claimed && m.phase != Concluded && m.queues[m.cur] != [] {
      var i := ArrivalTakesBest(m, t);
      ClaimedAfter(m);
    }
  }

  lemma ClaimedAfter(m: Match)
    requires m.Shaped() && !m.claimed
    ensures MoveArrived(m, m.turnId).claimed && MoveArrived(m, m.turnId).turnId == m.turnId
  {
  }

  lemma StartIsPaced(m: Match)
    requires m.Shaped() && m.pending > 0 && Paced(m)
    ensures Paced(StartTurn(m))
  {
    var m1 := NewTurn(m);
    assert m1.history == m.history && m1.queues == m.queues && m1.turnId == m.turnId + 1;
    if m1.remaining >= 2 && m1.alive[m1.cur] {
      ArrivalIsPaced(m1.(armed := Some((m1.cur, m1.turnId))), m1.turnId);
    }
  }

  lemma EliminationIsPaced(m: Match, p: nat)
    requires m.Shaped() && p < |m.alive| && Paced(m)
    ensures Paced(HandleElimination(m, p))
  {
    if m.alive[p] {
      EliminationForgets(m, p);
    }
  }

  lemma StepIsPaced(m: Match, e: Event)
    requires m.Shaped() && Enabled(m, e) && Paced(m)
    ensures Paced(Step(m, e))
  {
    if !m.corrupt {
      match e
      case RunTurn => StartIsPaced(m);
      case Deliver(p, c, t) =>
        if p < |m.alive| && |m.queues[p]| < MAX_QUEUE_SIZE {
          ArrivalIsPaced(m.(queues := m.queues[p := m.queues[p] + [c.(head := c.head.(sender := p))]]), t);
        }
      case TimerFires(t, expired) => EliminationIsPaced(m.(claimed := true), m.cur);
      case Forfeit(p) =>
        if p < |m.alive| {
          EliminationIsPaced(m, p);
        }
      case Sync(p) =>
    }
  }

  /** After any run no more commands have been executed than turns were begun, and at most eight wait in
      each queue. */
  lemma {:induction false} RunIsPaced(m: Match, events: seq<Event>)
    requires Sane(m) && CanRun(m, events) && Paced(m)
    ensures Paced(After(m, events))
    decreases |events|
  {
    if events != [] {
      StepIsSane(m, events[0]);
      StepIsPaced(m, events[0]);
      RunIsPaced(Step(m, events[0]), events[1..]);
    }
  }

  /** A command for the current turn, from a player who is not to move, waits exactly if fewer than eight do. */
  lemma WaitsIff(m: Match, p: nat, c: Command)
    requires m.Shaped() && !m.corrupt && m.phase != Concluded && p < |m.alive| && p != m.cur
    ensures Step(m, Deliver(p, c, m.turnId)).queues ==
            if |m.queues[p]| < 8 then m.queues[p := m.queues[p] + [c.(head := c.head.(sender := p))]] else m.queues
  {
  }
}
