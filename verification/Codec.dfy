/** The wire formats of the list, match and view messages: what the printers write, what the parsers
    read, and how the two relate. */
module Codec {
  import opened Basics

  const MAX_USERNAME_LENGTH := 24
  const MAX_PLAYERS := 5
  const UUID_SIZE := 16
  const FIXED_BYTES_SIZE := 7

  type Bytes = seq<u8>

  lemma Regroup(a: Bytes, b: Bytes, c: Bytes)
    ensures a + (b + c) == a + b + c
  {
  }

  // ---------------------------------------------------------------- numbers in network order

  /** x as k bytes, the most significant first; higher digits are lost. */
  function Big(k: nat, x: nat): (b: Bytes)
    ensures |b| == k
  {
    if k == 0 then [] else Big(k - 1, x / 256) + [x % 256]
  }

  function Value(b: Bytes): nat {
    if b == [] then 0 else Value(b[..|b| - 1]) * 256 + b[|b| - 1]
  }

  /** 256 to the k. */
  function Limit(k: nat): nat {
    if k == 0 then 1 else 256 * Limit(k - 1)
  }

  lemma {:induction false} BigThenValue(k: nat, x: nat)
    requires x < Limit(k)
    ensures Value(Big(k, x)) == x
  {
    if k > 0 {
      BigThenValue(k - 1, x / 256);
      assert Big(k, x)[..k - 1] == Big(k - 1, x / 256);
    }
  }

  lemma {:induction false} ValueThenBig(b: Bytes)
    ensures Value(b) < Limit(|b|) && Big(|b|, Value(b)) == b
  {
    if b != [] {
      ValueThenBig(b[..|b| - 1]);
    }
  }

  lemma DivideTwice(x: nat, b: nat)
    requires b > 0
    ensures x / 256 / b == x / (256 * b)
  {
    var q, c := x / 256 / b, 256 * b;
    assert b * q <= x / 256 < b * q + b;
    assert q * c == 256 * (b * q);
    Quotient(x, c, q, x - q * c);
  }

  lemma Quotient(x: int, d: int, q: int, r: int)
    requires 0 <= r < d && x == q * d + r
    ensures x / d == q
  {
    var e := x / d - q;
    assert x == d * (x / d) + x % d;
    assert d * e == r - x % d;
    assert e >= 1 ==> d * e >= d;
    assert e <= -1 ==> d * e <= -d;
  }

  /** Byte i of k is digit k - 1 - i to the base 256. */
  lemma {:induction false} BigIsNetworkOrder(k: nat, x: nat, i: nat)
    requires i < k
    ensures Limit(k - 1 - i) > 0 && Big(k, x)[i] == x / Limit(k - 1 - i) % 256
    decreases k
  {
    if i < k - 1 {
      BigIsNetworkOrder(k - 1, x / 256, i);
      DivideTwice(x, Limit(k - 2 - i));
    }
  }

  // ---------------------------------------------------------------- users

  datatype User = User(id: Bytes, name: Bytes)

  predicate Allowed(c: u8) {
    '0' as int <= c <= '9' as int || 'A' as int <= c <= 'Z' as int || 'a' as int <= c <= 'z' as int
    || c == '_' as int || c == '-' as int
  }

  predicate AllAllowed(name: Bytes) {
    forall i :: 0 <= i < |name| ==> Allowed(name[i])
  }

  predicate ValidUser(u: User) {
    |u.id| == UUID_SIZE && |u.name| <= MAX_USERNAME_LENGTH && AllAllowed(u.name)
  }

  predicate ValidUsers(us: seq<User>) {
    forall i :: 0 <= i < |us| ==> ValidUser(us[i])
  }

  /** The name's length is cast to one byte, and so many of its bytes follow. */
  function PrintUser(u: User): Bytes {
    u.id + [|u.name| % 256] + u.name[..|u.name| % 256]
  }

  function PrintUsers(us: seq<User>): Bytes {
    if us == [] then [] else PrintUser(us[0]) + PrintUsers(us[1..])
  }

  datatype Parsed<+T> = Bad | Good(value: T, rest: Bytes)

  function ParseUser(p: Bytes): (r: Parsed<User>)
    ensures r.Good? ==> |r.rest| < |p|
  {
    if |p| < UUID_SIZE + 1 then Bad
    else
      var n := p[UUID_SIZE];
      if n > MAX_USERNAME_LENGTH || n > |p| - UUID_SIZE - 1 then Bad
      else
        var name := p[UUID_SIZE + 1..UUID_SIZE + 1 + n];
        if AllAllowed(name) then Good(User(p[..UUID_SIZE], name), p[UUID_SIZE + 1 + n..]) else Bad
  }

  lemma PrintedUserParses(p: Bytes, u: User, rest: Bytes)
    requires ValidUser(u) && p == PrintUser(u) + rest
    ensures ParseUser(p) == Good(u, rest)
  {
    assert PrintUser(u) == u.id + [|u.name|] + u.name;
    assert p[..UUID_SIZE] == u.id && p[UUID_SIZE] == |u.name|;
    assert p[UUID_SIZE + 1..UUID_SIZE + 1 + |u.name|] == u.name;
    assert p[UUID_SIZE + 1 + |u.name|..] == rest;
  }

  lemma ParsedUserPrints(p: Bytes, u: User, rest: Bytes)
    requires ParseUser(p) == Good(u, rest)
    ensures ValidUser(u) && p == PrintUser(u) + rest
  {
    assert PrintUser(u) == u.id + [|u.name|] + u.name;
    assert p == p[..UUID_SIZE] + [p[UUID_SIZE]] + p[UUID_SIZE + 1..UUID_SIZE + 1 + |u.name|] + rest;
  }

  /** Reading a user gives exactly the valid user whose print comes first. */
  lemma ParseUserExact(p: Bytes, u: User, rest: Bytes)
    ensures ParseUser(p) == Good(u, rest) <==> ValidUser(u) && p == PrintUser(u) + rest
  {
    if ValidUser(u) && p == PrintUser(u) + rest {
      PrintedUserParses(p, u, rest);
    }
    if ParseUser(p) == Good(u, rest) {
      ParsedUserPrints(p, u, rest);
    }
  }

  lemma ValidUsersSplit(us: seq<User>)
    requires us != []
    ensures ValidUsers(us) <==> ValidUser(us[0]) && ValidUsers(us[1..])
  {
    if ValidUser(us[0]) && ValidUsers(us[1..]) {
      forall i | 0 <= i < |us|
        ensures ValidUser(us[i])
      {
        if i > 0 {
          assert us[i] == us[1..][i - 1];
        }
      }
    }
  }

  /** Users up to the end of the payload. */
  function ParseUsers(p: Bytes): Option<seq<User>>
    decreases |p|
  {
    if p == [] then Some([])
    else
      match ParseUser(p)
      case Bad => None
      case Good(u, rest) =>
        match ParseUsers(rest)
        case None => None
        case Some(us) => Some([u] + us)
  }

  lemma {:induction false} PrintedUsersParse(us: seq<User>)
    requires ValidUsers(us)
    ensures ParseUsers(PrintUsers(us)) == Some(us)
  {
    if us != [] {
      ValidUsersSplit(us);
      ParseUserExact(PrintUsers(us), us[0], PrintUsers(us[1..]));
      PrintedUsersParse(us[1..]);
      assert [us[0]] + us[1..] == us;
    }
  }

  lemma {:induction false} ParsedUsersPrint(p: Bytes)
    requires ParseUsers(p).Some?
    ensures ValidUsers(ParseUsers(p).value) && PrintUsers(ParseUsers(p).value) == p
    decreases |p|
  {
    if p != [] {
      var r, us := ParseUser(p), ParseUsers(p).value;
      ParseUserExact(p, r.value, r.rest);
      ParsedUsersPrint(r.rest);
      assert us[0] == r.value && us[1..] == ParseUsers(r.rest).value;
      ValidUsersSplit(us);
    }
  }

  /** The accepted payloads are exactly the prints of lists of valid users, and parsing gives the list
      back. */
  lemma UserListExact(p: Bytes, us: seq<User>)
    ensures ParseUsers(p) == Some(us) <==> ValidUsers(us) && PrintUsers(us) == p
  {
    if ValidUsers(us) && PrintUsers(us) == p {
      PrintedUsersParse(us);
    }
    if ParseUsers(p) == Some(us) {
      ParsedUsersPrint(p);
    }
  }

  /** A given number of users.  The strict reader, that of replays, wants a byte to follow each name. */
  function ParseCount(p: Bytes, n: nat, strict: bool): Parsed<seq<User>>
    decreases n
  {
    if n == 0 then Good([], p)
    else
      match ParseUser(p)
      case Bad => Bad
      case Good(u, rest) =>
        if strict && rest == [] then Bad
        else
          match ParseCount(rest, n - 1, strict)
          case Bad => Bad
          case Good(us, end) => Good([u] + us, end)
  }

  predicate CountedPrint(p: Bytes, n: nat, strict: bool, us: seq<User>, end: Bytes) {
    |us| == n && ValidUsers(us) && p == PrintUsers(us) + end && (strict && n > 0 ==> end != [])
  }

  /** One user, then the others. */
  lemma CountStep(p: Bytes, n: nat, strict: bool, u: User, rest: Bytes)
    requires n > 0 && ValidUser(u) && p == PrintUser(u) + rest && (strict ==> rest != [])
    requires ParseCount(rest, n - 1, strict).Good?
    ensures var c := ParseCount(rest, n - 1, strict);
            ParseCount(p, n, strict) == Good([u] + c.value, c.rest)
  {
    ParseUserExact(p, u, rest);
  }

  lemma UsersStep(us: seq<User>, end: Bytes)
    requires us != []
    ensures PrintUsers(us) + end == PrintUser(us[0]) + (PrintUsers(us[1..]) + end)
  {
    Regroup(PrintUser(us[0]), PrintUsers(us[1..]), end);
  }

  lemma PrintedCountStep(p: Bytes, us: seq<User>, rest: Bytes, end: Bytes, strict: bool)
    requires us != [] && ValidUser(us[0]) && p == PrintUser(us[0]) + rest && (strict ==> rest != [])
    requires ParseCount(rest, |us| - 1, strict) == Good(us[1..], end)
    ensures ParseCount(p, |us|, strict) == Good(us, end)
  {
    CountStep(p, |us|, strict, us[0], rest);
    assert [us[0]] + us[1..] == us;
  }

  lemma {:induction false} PrintedCountParses(p: Bytes, us: seq<User>, end: Bytes, strict: bool)
    requires ValidUsers(us) && (strict && us != [] ==> end != []) && p == PrintUsers(us) + end
    ensures ParseCount(p, |us|, strict) == Good(us, end)
    decreases |us|
  {
    if us == [] {
      assert p == end;
    } else {
      ValidUsersSplit(us);
      UsersStep(us, end);
      var rest := PrintUsers(us[1..]) + end;
      PrintedCountParses(rest, us[1..], end, strict);
      PrintedCountStep(p, us, rest, end, strict);
    }
  }

  lemma {:induction false} ParsedCountPrints(p: Bytes, n: nat, strict: bool, us: seq<User>, end: Bytes)
    requires ParseCount(p, n, strict) == Good(us, end)
    ensures CountedPrint(p, n, strict, us, end)
    decreases n
  {
    if n == 0 {
      assert PrintUsers([]) + end == end;
    } else {
      var r := ParseUser(p);
      ParseUserExact(p, r.value, r.rest);
      assert us[0] == r.value && us[1..] == ParseCount(r.rest, n - 1, strict).value;
      ParsedCountPrints(r.rest, n - 1, strict, us[1..], end);
      ValidUsersSplit(us);
      Regroup(PrintUser(r.value), PrintUsers(us[1..]), end);
    }
  }

  // ---------------------------------------------------------------- static match data

  datatype StaticMatchData = StaticMatchData(users: seq<User>, mask: Bytes)

  function PrintStatic(d: StaticMatchData): Bytes {
    [|d.users| % 256] + (PrintUsers(d.users) + d.mask)
  }

  /** What a printed match can be read back from: at most five valid users, and at least 32 bytes in
      all. */
  predicate ValidStatic(d: StaticMatchData) {
    |d.users| <= MAX_PLAYERS && ValidUsers(d.users) && |PrintStatic(d)| >= 2 * UUID_SIZE
  }

  function ParseStatic(p: Bytes): Option<StaticMatchData> {
    if |p| < 2 * UUID_SIZE || p[0] > MAX_PLAYERS then None
    else
      match ParseCount(p[1..], p[0], false)
      case Bad => None
      case Good(us, mask) => Some(StaticMatchData(us, mask))
  }

  lemma FirstByte(x: u8, p: Bytes)
    ensures ([x] + p)[0] == x && ([x] + p)[1..] == p
  {
  }

  lemma StaticParts(p: Bytes, d: StaticMatchData)
    requires |p| >= 2 * UUID_SIZE && p[0] == |d.users| <= MAX_PLAYERS && ValidUsers(d.users)
    requires p[1..] == PrintUsers(d.users) + d.mask
    ensures ParseStatic(p) == Some(d)
  {
    PrintedCountParses(p[1..], d.users, d.mask, false);
  }

  lemma PrintedStaticParses(d: StaticMatchData)
    requires ValidStatic(d)
    ensures ParseStatic(PrintStatic(d)) == Some(d)
  {
    FirstByte(|d.users| % 256, PrintUsers(d.users) + d.mask);
    StaticParts(PrintStatic(d), d);
  }

  lemma FirstAndRest(p: Bytes, x: u8, rest: Bytes)
    requires p != [] && p[0] == x && p[1..] == rest
    ensures p == [x] + rest
  {
  }

  lemma StaticWhole(p: Bytes, d: StaticMatchData)
    requires |p| >= 2 * UUID_SIZE && p[0] <= MAX_PLAYERS && CountedPrint(p[1..], p[0], false, d.users, d.mask)
    ensures ValidStatic(d) && PrintStatic(d) == p
  {
    FirstAndRest(p, p[0], PrintUsers(d.users) + d.mask);
  }

  lemma ParsedStaticPrints(p: Bytes, d: StaticMatchData)
    requires ParseStatic(p) == Some(d)
    ensures ValidStatic(d) && PrintStatic(d) == p
  {
    ParsedCountPrints(p[1..], p[0], false, d.users, d.mask);
    StaticWhole(p, d);
  }

  /** The accepted payloads are exactly the prints of valid match data, and parsing gives it back. */
  lemma StaticExact(p: Bytes, d: StaticMatchData)
    ensures ParseStatic(p) == Some(d) <==> ValidStatic(d) && PrintStatic(d) == p
  {
    if ValidStatic(d) && PrintStatic(d) == p {
      PrintedStaticParses(d);
    }
    if ParseStatic(p) == Some(d) {
      ParsedStaticPrints(p, d);
    }
  }

  // ---------------------------------------------------------------- replays

  /** A command head as it travels: any byte may stand for its kind. */
  datatype Move = Move(sender: u8, kind: u8, tankId: u8, first: u8, second: u8)

  datatype MatchReplay = MatchReplay(
    time: nat, increment: nat, id: nat, filename: Bytes,
    width: u8, height: u8, tanks: u8, players: u8, mode: u8,
    users: seq<User>, moves: seq<Move>)

  function PrintMove(m: Move): Bytes {
    [m.sender, m.kind, m.tankId, m.first, m.second]
  }

  function PrintMoves(moves: seq<Move>): Bytes {
    if moves == [] then [] else PrintMove(moves[0]) + PrintMoves(moves[1..])
  }

  /** Lengths and numbers lose their higher digits when they do not fit. */
  function PrintReplay(r: MatchReplay): Bytes {
    Big(4, |r.moves|) + Big(2, |r.filename|) + Big(8, r.time) + Big(8, r.increment) + Big(8, r.id)
    + r.filename + [r.width, r.height, r.tanks, r.players, r.mode] + PrintUsers(r.users) + PrintMoves(r.moves)
  }

  /** Fields within their widths, as many valid users as players, and at least one move if there are
      users. */
  predicate ValidReplay(r: MatchReplay) {
    && |r.moves| < Limit(4) && |r.filename| < Limit(2) && r.time < Limit(8) && r.increment < Limit(8) && r.id < Limit(8)
    && |r.users| == r.players && ValidUsers(r.users)
    && (r.players > 0 ==> r.moves != [])
  }

  function ParseMove(p: Bytes): Move
    requires |p| >= 5
  {
    Move(p[0], p[1], p[2], p[3], p[4])
  }

  /** The moves up to the end, five bytes each. */
  function ParseMoves(p: Bytes): (moves: seq<Move>)
    decreases |p|
  {
    if |p| < 5 then [] else [ParseMove(p)] + ParseMoves(p[5..])
  }

  /** The users and moves, after the settings. */
  function ParseBody(r: MatchReplay, turns: nat, p: Bytes): Option<MatchReplay> {
    match ParseCount(p, r.players, true)
    case Bad => None
    case Good(us, rest) =>
      if |rest| != 5 * turns then None else Some(r.(users := us, moves := ParseMoves(rest)))
  }

  /** The file name and the settings, after the numbers. */
  function ParseSettings(time: nat, increment: nat, id: nat, length: nat, turns: nat, p: Bytes): Option<MatchReplay> {
    if |p| < length || |p| - length < 5 then None
    else
      var s := p[length..];
      ParseBody(MatchReplay(time, increment, id, p[..length], s[0], s[1], s[2], s[3], s[4], [], []), turns, s[5..])
  }

  function ParseReplay(p: Bytes): Option<MatchReplay> {
    if |p| < 30 then None
    else ParseSettings(Value(p[6..14]), Value(p[14..22]), Value(p[22..30]), Value(p[4..6]), Value(p[..4]), p[30..])
  }

  lemma {:induction false} PrintedMovesParse(moves: seq<Move>)
    ensures ParseMoves(PrintMoves(moves)) == moves && |PrintMoves(moves)| == 5 * |moves|
  {
    if moves != [] {
      PrintedMovesParse(moves[1..]);
      assert PrintMoves(moves)[5..] == PrintMoves(moves[1..]);
      assert [moves[0]] + moves[1..] == moves;
    }
  }

  lemma {:induction false} ParsedMovesPrint(p: Bytes, n: nat)
    requires |p| == 5 * n
    ensures PrintMoves(ParseMoves(p)) == p && |ParseMoves(p)| == n
    decreases n
  {
    if n > 0 {
      ParsedMovesPrint(p[5..], n - 1);
      assert ParseMoves(p)[0] == ParseMove(p) && ParseMoves(p)[1..] == ParseMoves(p[5..]);
      assert p == PrintMove(ParseMove(p)) + p[5..];
    }
  }

  // The layout of a printed replay, innermost part first.

  function PrintBody(r: MatchReplay): Bytes {
    PrintUsers(r.users) + PrintMoves(r.moves)
  }

  function PrintSettings(r: MatchReplay): Bytes {
    r.filename + ([r.width, r.height, r.tanks, r.players, r.mode] + PrintBody(r))
  }

  function PrintHead(r: MatchReplay): Bytes {
    Big(4, |r.moves|) + Big(2, |r.filename|) + Big(8, r.time) + Big(8, r.increment) + Big(8, r.id)
  }

  lemma ReplayLayout(r: MatchReplay)
    ensures PrintReplay(r) == PrintHead(r) + PrintSettings(r) && |PrintHead(r)| == 30
  {
    var s := [r.width, r.height, r.tanks, r.players, r.mode];
    Regroup(PrintHead(r) + r.filename + s, PrintUsers(r.users), PrintMoves(r.moves));
    Regroup(PrintHead(r) + r.filename, s, PrintBody(r));
    Regroup(PrintHead(r), r.filename, s + PrintBody(r));
  }

  /** The replay without users and moves. */
  function Bare(r: MatchReplay): MatchReplay {
    r.(users := [], moves := [])
  }

  lemma PrintedBodyParses(r: MatchReplay)
    requires ValidReplay(r)
    ensures ParseBody(Bare(r), |r.moves|, PrintBody(r)) == Some(r)
  {
    PrintedMovesParse(r.moves);
    PrintedCountParses(PrintBody(r), r.users, PrintMoves(r.moves), true);
  }

  lemma ParsedBodyPrints(b: MatchReplay, turns: nat, p: Bytes, r: MatchReplay)
    requires ParseBody(b, turns, p) == Some(r) && b == Bare(b)
    ensures b == Bare(r) && |r.moves| == turns && p == PrintBody(r)
    ensures |r.users| == r.players && ValidUsers(r.users) && (r.players > 0 ==> r.moves != [])
  {
    var c := ParseCount(p, b.players, true);
    ParsedCountPrints(p, b.players, true, c.value, c.rest);
    ParsedMovesPrint(c.rest, turns);
  }

  lemma PrintedSettingsParse(r: MatchReplay)
    requires ValidReplay(r)
    ensures ParseSettings(r.time, r.increment, r.id, |r.filename|, |r.moves|, PrintSettings(r)) == Some(r)
  {
    PrintedBodyParses(r);
    var p := PrintSettings(r);
    assert p[..|r.filename|] == r.filename;
    var s := p[|r.filename|..];
    assert s == [r.width, r.height, r.tanks, r.players, r.mode] + PrintBody(r);
    assert s[5..] == PrintBody(r);
  }

  lemma ParsedSettingsPrint(time: nat, increment: nat, id: nat, length: nat, turns: nat, p: Bytes, r: MatchReplay)
    requires ParseSettings(time, increment, id, length, turns, p) == Some(r)
    ensures p == PrintSettings(r) && r.time == time && r.increment == increment && r.id == id
    ensures |r.filename| == length && |r.moves| == turns
    ensures |r.users| == r.players && ValidUsers(r.users) && (r.players > 0 ==> r.moves != [])
  {
    var s := p[length..];
    var b := MatchReplay(time, increment, id, p[..length], s[0], s[1], s[2], s[3], s[4], [], []);
    ParsedBodyPrints(b, turns, s[5..], r);
    FileNameFirst(p, length, [r.width, r.height, r.tanks, r.players, r.mode] + PrintBody(r));
  }

  lemma FileNameFirst(p: Bytes, length: nat, tail: Bytes)
    requires |p| >= length + 5
    requires var s := p[length..]; tail == [s[0], s[1], s[2], s[3], s[4]] + s[5..]
    ensures p == p[..length] + tail
  {
    FirstFive(p[length..]);
  }

  lemma FirstFive(s: Bytes)
    requires |s| >= 5
    ensures s == [s[0], s[1], s[2], s[3], s[4]] + s[5..]
  {
  }

  lemma HeadParts(r: MatchReplay, p: Bytes)
    requires p == PrintHead(r) + PrintSettings(r)
    ensures |p| >= 30 && p[..4] == Big(4, |r.moves|) && p[4..6] == Big(2, |r.filename|)
    ensures p[6..14] == Big(8, r.time) && p[14..22] == Big(8, r.increment) && p[22..30] == Big(8, r.id)
    ensures p[30..] == PrintSettings(r)
  {
  }

  lemma PrintedReplayParses(r: MatchReplay)
    requires ValidReplay(r)
    ensures ParseReplay(PrintReplay(r)) == Some(r)
  {
    ReplayLayout(r);
    HeadParts(r, PrintReplay(r));
    BigThenValue(4, |r.moves|);
    BigThenValue(2, |r.filename|);
    BigThenValue(8, r.time);
    BigThenValue(8, r.increment);
    BigThenValue(8, r.id);
    PrintedSettingsParse(r);
  }

  lemma HeadOf(p: Bytes)
    requires |p| >= 30
    ensures p == p[..4] + p[4..6] + p[6..14] + p[14..22] + p[22..30] + p[30..]
    ensures p[..4] == Big(4, Value(p[..4])) && p[4..6] == Big(2, Value(p[4..6])) && p[6..14] == Big(8, Value(p[6..14]))
    ensures p[14..22] == Big(8, Value(p[14..22])) && p[22..30] == Big(8, Value(p[22..30]))
    ensures Value(p[..4]) < Limit(4) && Value(p[4..6]) < Limit(2) && Value(p[6..14]) < Limit(8)
    ensures Value(p[14..22]) < Limit(8) && Value(p[22..30]) < Limit(8)
  {
    ValueThenBig(p[..4]);
    ValueThenBig(p[4..6]);
    ValueThenBig(p[6..14]);
    ValueThenBig(p[14..22]);
    ValueThenBig(p[22..30]);
  }

  lemma ParsedReplayPrints(p: Bytes, r: MatchReplay)
    requires ParseReplay(p) == Some(r)
    ensures ValidReplay(r) && PrintReplay(r) == p
  {
    ParsedSettingsPrint(Value(p[6..14]), Value(p[14..22]), Value(p[22..30]), Value(p[4..6]), Value(p[..4]), p[30..], r);
    HeadOf(p);
    ReplayLayout(r);
  }

  /** The accepted payloads are exactly the prints of valid replays, and parsing gives the replay
      back. */
  lemma ReplayExact(p: Bytes, r: MatchReplay)
    ensures ParseReplay(p) == Some(r) <==> ValidReplay(r) && PrintReplay(r) == p
  {
    if ValidReplay(r) && PrintReplay(r) == p {
      PrintedReplayParses(r);
    }
    if ParseReplay(p) == Some(r) {
      ParsedReplayPrints(p, r);
    }
  }

  /** A replay with players but no moves does not survive: its print is refused. */
  lemma EmptyReplayIsRefused(r: MatchReplay)
    requires r.players > 0 && r.moves == [] && |r.users| == r.players && ValidUsers(r.users) && |r.filename| < Limit(2)
    ensures ParseReplay(PrintReplay(r)).None?
  {
    ReplayLayout(r);
    HeadParts(r, PrintReplay(r));
    BigThenValue(2, |r.filename|);
    BigThenValue(4, 0);
    var p := PrintReplay(r);
    if ParseReplay(p).Some? {
      ParsedReplayPrints(p, ParseReplay(p).value);
    }
  }
}
