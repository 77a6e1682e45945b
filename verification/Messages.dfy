/** A message as the source keeps it: printers build the payload in a buffer, parsers walk it with an
    index. */
module Messages {
  import opened Basics
  import opened Codec
  import opened ViewCodec

  class Message {
    var payload: Bytes

    constructor (payload: Bytes)
      ensures this.payload == payload
    {
      this.payload := payload;
    }

    // -------------------------------------------------------------- printers

    static method AppendUsers(buffer: Bytes, us: seq<User>) returns (out: Bytes)
      ensures out == buffer + PrintUsers(us)
    {
      out := buffer;
      for i := 0 to |us|
        invariant out + PrintUsers(us[i..]) == buffer + PrintUsers(us)
      {
        var n := |us[i].name| % 256;
        assert us[i..][0] == us[i] && us[i..][1..] == us[i + 1..];
        Regroup(out, PrintUser(us[i]), PrintUsers(us[i + 1..]));
        ghost var before := out;
        out := out + us[i].id + [n] + us[i].name[..n];
        assert out == before + PrintUser(us[i]);
      }
    }

    static method AppendMoves(buffer: Bytes, moves: seq<Move>) returns (out: Bytes)
      ensures out == buffer + PrintMoves(moves)
    {
      out := buffer;
      for i := 0 to |moves|
        invariant out + PrintMoves(moves[i..]) == buffer + PrintMoves(moves)
      {
        var m := moves[i];
        assert moves[i..][0] == m && moves[i..][1..] == moves[i + 1..];
        Regroup(out, PrintMove(m), PrintMoves(moves[i + 1..]));
        out := out + [m.sender, m.kind, m.tankId, m.first, m.second];
      }
    }

    method CreateUserList(us: seq<User>)
      modifies this
      ensures payload == PrintUsers(us)
    {
      payload := AppendUsers([], us);
    }

    method CreateStaticMatchData(d: StaticMatchData)
      modifies this
      ensures payload == PrintStatic(d)
    {
      var n: u8 := |d.users| % 256;
      var buffer := AppendUsers([n], d.users);
      payload := buffer + d.mask;
      Regroup([n], PrintUsers(d.users), d.mask);
    }

    method CreateMatchReplay(r: MatchReplay)
      modifies this
      ensures payload == PrintReplay(r)
    {
      var buffer := Big(4, |r.moves|) + Big(2, |r.filename|);
      buffer := buffer + Big(8, r.time) + Big(8, r.increment) + Big(8, r.id);
      buffer := buffer + r.filename + [r.width, r.height, r.tanks, r.players, r.mode];
      buffer := AppendUsers(buffer, r.users);
      payload := AppendMoves(buffer, r.moves);
    }

    static method AppendCells(buffer: Bytes, cells: seq<WireCell>) returns (out: Bytes)
      ensures out == buffer + PrintCells(cells)
    {
      out := buffer;
      for i := 0 to |cells|
        invariant out + PrintCells(cells[i..]) == buffer + PrintCells(cells)
      {
        var c := cells[i];
        assert cells[i..][0] == c && cells[i..][1..] == cells[i + 1..];
        Regroup(out, PrintCell(c), PrintCells(cells[i + 1..]));
        out := out + [c.kind, c.occupant, Byte(c.visible)];
      }
    }

    static method AppendTanks(buffer: Bytes, tanks: seq<WireTank>) returns (out: Bytes)
      ensures out == buffer + PrintTanks(tanks)
    {
      out := buffer;
      for i := 0 to |tanks|
        invariant out + PrintTanks(tanks[i..]) == buffer + PrintTanks(tanks)
      {
        var t := tanks[i];
        assert tanks[i..][0] == t && tanks[i..][1..] == tanks[i + 1..];
        Regroup(out, PrintTank(t), PrintTanks(tanks[i + 1..]));
        out := out + [t.x, t.y, t.direction, t.barrel, t.id, t.health, Byte(t.aimFocused), Byte(t.loaded), t.owner];
      }
    }

    static method AppendTimers(buffer: Bytes, timers: seq<int>) returns (out: Bytes)
      requires AllInt64(timers)
      ensures out == buffer + PrintTimers(timers)
    {
      out := buffer;
      for i := 0 to |timers|
        invariant out + PrintTimers(timers[i..]) == buffer + PrintTimers(timers)
      {
        assert timers[i..][0] == timers[i] && timers[i..][1..] == timers[i + 1..];
        Regroup(out, PrintTimer(timers[i]), PrintTimers(timers[i + 1..]));
        out := out + PrintTimer(timers[i]);
      }
    }

    method CreatePlayerView(v: PlayerView)
      requires AllInt64(v.timers)
      modifies this
      ensures payload == PrintView(v)
    {
      var tanks := v.tanks[..|v.tanks| % 256];
      var head := [|v.tanks| % 256, v.player, v.width, v.height, v.fuel, v.state, |v.timers| % 256];
      var buffer := AppendCells(head, v.cells);
      buffer := AppendTanks(buffer, tanks);
      payload := AppendTimers(buffer, v.timers);
      Regroup(head + PrintCells(v.cells), PrintTanks(tanks), PrintTimers(v.timers));
      Regroup(head, PrintCells(v.cells), PrintTanks(tanks) + PrintTimers(v.timers));
    }

    // -------------------------------------------------------------- parsers

    /** The user at an index, and the index after it. */
    method ReadUser(start: nat) returns (ok: bool, user: User, index: nat)
      requires start <= |payload|
      ensures ok ==> start < index <= |payload| && ParseUser(payload[start..]) == Good(user, payload[index..])
      ensures !ok ==> ParseUser(payload[start..]) == Bad
    {
      ok, user, index := false, User([], []), start;
      if index + UUID_SIZE + 1 > |payload| {
        return;
      }
      var id := payload[index..index + UUID_SIZE];
      index := index + UUID_SIZE;
      var length := payload[index];
      index := index + 1;
      if length > MAX_USERNAME_LENGTH || length + index > |payload| {
        return;
      }
      ghost var p := payload[start..];
      assert p[UUID_SIZE] == length && p[..UUID_SIZE] == id;
      ghost var rest := p[UUID_SIZE + 1..UUID_SIZE + 1 + length];
      var name := [];
      for i := 0 to length
        invariant name == rest[..i] && AllAllowed(name)
      {
        var c := payload[index + i];
        assert rest[i] == c;
        if !Allowed(c) {
          return;
        }
        name := name + [c];
      }
      assert name == rest;
      ok, user, index := true, User(id, name), index + length;
      assert p[UUID_SIZE + 1 + length..] == payload[index..];
    }

    method ToUserList() returns (ok: bool, us: seq<User>)
      ensures ParseUsers(payload) == if ok then Some(us) else None
    {
      us := [];
      var index := 0;
      assert payload[0..] == payload;
      ContinuedFrom(ParseUsers(payload));
      while index < |payload|
        invariant index <= |payload| && ParseUsers(payload) == Continued(us, ParseUsers(payload[index..]))
        decreases |payload| - index
      {
        var user;
        ok, user, index := ReadUser(index);
        if !ok {
          return;
        }
        ContinuedNext(us, user, ParseUsers(payload[index..]));
        us := us + [user];
      }
      assert payload[index..] == [];
      assert us + [] == us;
      ok := true;
    }

    /** A counted list of users from an index on, as in static data and in replays. */
    method ReadUsers(start: nat, n: nat, strict: bool) returns (ok: bool, us: seq<User>, index: nat)
      requires start <= |payload|
      ensures ok ==> index <= |payload| && ParseCount(payload[start..], n, strict) == Good(us, payload[index..])
      ensures !ok ==> ParseCount(payload[start..], n, strict) == Bad
    {
      ok, us, index := true, [], start;
      ghost var whole := ParseCount(payload[start..], n, strict);
      PrefixedFrom(whole);
      for i := 0 to n
        invariant ok && index <= |payload| && whole == Prefixed(us, ParseCount(payload[index..], n - i, strict))
      {
        var user;
        ok, user, index := ReadUser(index);
        if !ok {
          return;
        }
        if strict && index >= |payload| {
          assert payload[index..] == [];
          ok := false;
          return;
        }
        PrefixedNext(us, user, ParseCount(payload[index..], n - i - 1, strict));
        us := us + [user];
      }
      assert us + [] == us;
    }

    method ToStaticMatchData() returns (ok: bool, d: StaticMatchData)
      ensures ParseStatic(payload) == if ok then Some(d) else None
    {
      ok, d := false, StaticMatchData([], []);
      if |payload| < 2 * 16 {
        return;
      }
      var n := payload[0];
      if n > MAX_PLAYERS {
        return;
      }
      var us, index;
      ok, us, index := ReadUsers(1, n, false);
      if ok {
        d := StaticMatchData(us, payload[index..]);
      }
    }

    /** A number of k bytes in network order. */
    method ReadNumber(index: nat, k: nat) returns (x: nat)
      requires index + k <= |payload|
      ensures x == Value(payload[index..index + k])
    {
      x := 0;
      for i := 0 to k
        invariant x == Value(payload[index..index + i])
      {
        assert payload[index..index + i + 1][..i] == payload[index..index + i];
        x := x * 256 + payload[index + i];
      }
    }

    method ReadMoves(start: nat) returns (moves: seq<Move>)
      requires start <= |payload|
      ensures moves == ParseMoves(payload[start..])
    {
      moves := [];
      var index := start;
      while |payload| - index >= 5
        invariant index <= |payload| && moves + ParseMoves(payload[index..]) == ParseMoves(payload[start..])
        decreases |payload| - index
      {
        var m := Move(payload[index], payload[index + 1], payload[index + 2], payload[index + 3], payload[index + 4]);
        assert ParseMove(payload[index..]) == m && payload[index..][5..] == payload[index + 5..];
        Shift(moves, m, ParseMoves(payload[index + 5..]));
        moves := moves + [m];
        index := index + 5;
      }
      assert moves + [] == moves;
    }

    method ToMatchReplay() returns (ok: bool, r: MatchReplay)
      ensures ParseReplay(payload) == if ok then Some(r) else None
    {
      ok, r := false, MatchReplay(0, 0, 0, [], 0, 0, 0, 0, 0, [], []);
      if |payload| < 4 {
        return;
      }
      var turns := ReadNumber(0, 4);
      if |payload| - 4 < 2 {
        return;
      }
      var length := ReadNumber(4, 2);
      if |payload| - 6 < 8 {
        return;
      }
      var time := ReadNumber(6, 8);
      if |payload| - 14 < 8 {
        return;
      }
      var increment := ReadNumber(14, 8);
      if |payload| - 22 < 8 {
        return;
      }
      var id := ReadNumber(22, 8);
      ok, r := ReadSettings(time, increment, id, length, turns);
    }

    /** The file name and the settings, from byte 30 on. */
    method ReadSettings(time: nat, increment: nat, id: nat, length: nat, turns: nat) returns (ok: bool, r: MatchReplay)
      requires |payload| >= 30
      ensures ParseSettings(time, increment, id, length, turns, payload[30..]) == if ok then Some(r) else None
    {
      ok, r := false, MatchReplay(time, increment, id, [], 0, 0, 0, 0, 0, [], []);
      var index := 30;
      if |payload| - index < length {
        return;
      }
      var filename := payload[index..index + length];
      assert filename == payload[30..][..length];
      Twice(payload, index, length);
      index := index + length;
      if |payload| - index < 5 {
        return;
      }
      r := MatchReplay(time, increment, id, filename, payload[index], payload[index + 1], payload[index + 2],
                       payload[index + 3], payload[index + 4], [], []);
      Twice(payload, index, 5);
      index := index + 5;
      ok, r := ReadBody(r, turns, index);
    }

    /** The users and moves of a replay whose settings end at an index. */
    method ReadBody(bare: MatchReplay, turns: nat, start: nat) returns (ok: bool, r: MatchReplay)
      requires start <= |payload|
      ensures Codec.ParseBody(bare, turns, payload[start..]) == if ok then Some(r) else None
    {
      r := bare;
      var us, index;
      ok, us, index := ReadUsers(start, bare.players, true);
      if !ok {
        return;
      }
      if |payload| - index != 5 * turns {
        ok := false;
        return;
      }
      var moves := ReadMoves(index);
      r := bare.(users := us, moves := moves);
    }

    method ReadGrid(start: nat, n: nat) returns (cells: seq<WireCell>)
      requires start + 3 * n <= |payload|
      ensures cells == ReadCells(payload[start..], n)
    {
      cells := [];
      var index := start;
      for i := 0 to n
        invariant index == start + 3 * i
        invariant cells + ReadCells(payload[index..], n - i) == ReadCells(payload[start..], n)
      {
        var c := WireCell(payload[index], payload[index + 1], payload[index + 2] != 0);
        CellFrom(payload, index, c);
        CellsFrom(payload, index, n - i, cells, c);
        cells := cells + [c];
        index := index + 3;
      }
      assert cells + [] == cells;
    }

    method ReadTankList(start: nat, n: nat) returns (tanks: seq<WireTank>)
      requires start + 9 * n <= |payload|
      ensures tanks == ReadTanks(payload[start..], n)
    {
      tanks := [];
      var index := start;
      for i := 0 to n
        invariant index == start + 9 * i
        invariant tanks + ReadTanks(payload[index..], n - i) == ReadTanks(payload[start..], n)
      {
        var t := WireTank(payload[index], payload[index + 1], payload[index + 2], payload[index + 3],
                          payload[index + 4], payload[index + 5], payload[index + 6] != 0,
                          payload[index + 7] != 0, payload[index + 8]);
        TankFrom(payload, index, t);
        TanksFrom(payload, index, n - i, tanks, t);
        tanks := tanks + [t];
        index := index + 9;
      }
      assert tanks + [] == tanks;
    }

    method ReadTimerList(start: nat, n: nat) returns (timers: seq<int>)
      requires start + 8 * n <= |payload|
      ensures timers == ReadTimers(payload[start..], n)
    {
      timers := [];
      var index := start;
      for i := 0 to n
        invariant index == start + 8 * i
        invariant timers + ReadTimers(payload[index..], n - i) == ReadTimers(payload[start..], n)
      {
        var raw := ReadNumber(index, 8);
        var x := if raw < INT64_LIMIT then raw else raw - 2 * INT64_LIMIT;
        assert payload[index..][..8] == payload[index..index + 8];
        TimersFrom(payload, index, n - i, timers, x);
        timers := timers + [x];
        index := index + 8;
      }
      assert timers + [] == timers;
    }

    method ToPlayerView() returns (ok: bool, v: PlayerView)
      ensures ParseView(payload) == if ok then Some(v) else None
    {
      ok, v := false, PlayerView(0, 0, 0, 0, 0, [], [], []);
      if |payload| < FIXED_BYTES_SIZE {
        return;
      }
      var width, height, tanks, timers := payload[2], payload[3], payload[0], payload[6];
      ok, v := ReadView(PlayerView(payload[1], width, height, payload[4], payload[5], [], [], []),
                        width, height, tanks, timers);
    }

    /** What follows the first seven bytes. */
    method ReadView(bare: PlayerView, width: nat, height: nat, tanks: nat, timers: nat)
      returns (ok: bool, v: PlayerView)
      requires |payload| >= FIXED_BYTES_SIZE
      ensures ViewCodec.ParseBody(bare, Area(width, height), tanks, timers, payload[FIXED_BYTES_SIZE..]) ==
              if ok then Some(v) else None
    {
      ok, v := false, bare;
      var index := FIXED_BYTES_SIZE;
      if |payload| - index < width * height * 3 {
        return;
      }
      var cells := ReadGrid(index, width * height);
      ghost var p := payload[index..];
      index := index + 3 * Area(width, height);
      assert p[3 * Area(width, height)..] == payload[index..];
      if |payload| - index < tanks * 9 {
        return;
      }
      var tankList := ReadTankList(index, tanks);
      assert payload[index..][9 * tanks..] == payload[index + 9 * tanks..];
      index := index + 9 * tanks;
      if |payload| - index < timers * 8 {
        return;
      }
      var timerList := ReadTimerList(index, timers);
      ok, v := true, bare.(cells := cells, tanks := tankList, timers := timerList);
    }
  }

  /** What the users read so far and the outcome of reading the others make together. */
  function Continued(us: seq<User>, others: Option<seq<User>>): Option<seq<User>> {
    if others.None? then None else Some(us + others.value)
  }

  lemma ContinuedFrom(others: Option<seq<User>>)
    ensures Continued([], others) == others
  {
    if others.Some? {
      assert [] + others.value == others.value;
    }
  }

  lemma ContinuedNext(us: seq<User>, u: User, others: Option<seq<User>>)
    ensures Continued(us, Continued([u], others)) == Continued(us + [u], others)
  {
    if others.Some? {
      assert us + ([u] + others.value) == us + [u] + others.value;
    }
  }

  function Prefixed(us: seq<User>, others: Parsed<seq<User>>): Parsed<seq<User>> {
    if others.Bad? then Bad else Good(us + others.value, others.rest)
  }

  lemma PrefixedFrom(others: Parsed<seq<User>>)
    ensures Prefixed([], others) == others
  {
    if others.Good? {
      assert [] + others.value == others.value;
    }
  }

  lemma PrefixedNext(us: seq<User>, u: User, others: Parsed<seq<User>>)
    ensures Prefixed(us, Prefixed([u], others)) == Prefixed(us + [u], others)
  {
    if others.Good? {
      assert us + ([u] + others.value) == us + [u] + others.value;
    }
  }

  lemma Shift<T>(xs: seq<T>, x: T, ys: seq<T>)
    ensures xs + ([x] + ys) == xs + [x] + ys
  {
  }

  lemma Twice<T>(xs: seq<T>, a: nat, b: nat)
    requires a + b <= |xs|
    ensures xs[a..][b..] == xs[a + b..]
  {
  }

  lemma CellsStep(b: Bytes, n: nat)
    requires n > 0 && |b| >= 3 * n
    ensures ReadCells(b, n) == [ReadCell(b[..3])] + ReadCells(b[3..], n - 1)
  {
  }

  lemma CellFrom(p: Bytes, index: nat, c: WireCell)
    requires index + 3 <= |p| && c == WireCell(p[index], p[index + 1], p[index + 2] != 0)
    ensures ReadCell(p[index..][..3]) == c
  {
  }

  lemma CellsFrom(p: Bytes, index: nat, k: nat, cells: seq<WireCell>, c: WireCell)
    requires k > 0 && index + 3 * k <= |p| && ReadCell(p[index..][..3]) == c
    ensures cells + ReadCells(p[index..], k) == cells + [c] + ReadCells(p[index + 3..], k - 1)
  {
    CellsStep(p[index..], k);
    Twice(p, index, 3);
    Shift(cells, c, ReadCells(p[index + 3..], k - 1));
  }

  lemma TankFrom(p: Bytes, index: nat, t: WireTank)
    requires index + 9 <= |p|
    requires t == WireTank(p[index], p[index + 1], p[index + 2], p[index + 3], p[index + 4],
                           p[index + 5], p[index + 6] != 0, p[index + 7] != 0, p[index + 8])
    ensures ReadTank(p[index..][..9]) == t
  {
  }

  lemma TanksStep(b: Bytes, n: nat)
    requires n > 0 && |b| >= 9 * n
    ensures ReadTanks(b, n) == [ReadTank(b[..9])] + ReadTanks(b[9..], n - 1)
  {
  }

  lemma TanksFrom(p: Bytes, index: nat, k: nat, tanks: seq<WireTank>, t: WireTank)
    requires k > 0 && index + 9 * k <= |p| && ReadTank(p[index..][..9]) == t
    ensures tanks + ReadTanks(p[index..], k) == tanks + [t] + ReadTanks(p[index + 9..], k - 1)
  {
    TanksStep(p[index..], k);
    Twice(p, index, 9);
    Shift(tanks, t, ReadTanks(p[index + 9..], k - 1));
  }

  lemma TimersStep(b: Bytes, n: nat)
    requires n > 0 && |b| >= 8 * n
    ensures ReadTimers(b, n) == [ReadTimer(b[..8])] + ReadTimers(b[8..], n - 1)
  {
  }

  lemma TimersFrom(p: Bytes, index: nat, k: nat, timers: seq<int>, x: int)
    requires k > 0 && index + 8 * k <= |p| && ReadTimer(p[index..][..8]) == x
    ensures timers + ReadTimers(p[index..], k) == timers + [x] + ReadTimers(p[index + 8..], k - 1)
  {
    TimersStep(p[index..], k);
    Twice(p, index, 8);
    Shift(timers, x, ReadTimers(p[index + 8..], k - 1));
  }
}
