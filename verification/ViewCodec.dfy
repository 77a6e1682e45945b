/** The wire format of a player's view. */
module ViewCodec {
  import opened Basics
  import opened Codec

  const INT64_LIMIT: int := 0x8000_0000_0000_0000

  /** Cells, tanks and states as they travel: any byte may stand for a cell type or a game state. */
  datatype WireCell = WireCell(kind: u8, occupant: u8, visible: bool)

  datatype WireTank = WireTank(x: u8, y: u8, direction: u8, barrel: u8, id: u8, health: u8,
                               aimFocused: bool, loaded: bool, owner: u8)

  /** Timers are milliseconds in an `int64_t`. */
  datatype PlayerView = PlayerView(player: u8, width: u8, height: u8, fuel: u8, state: u8,
                                   cells: seq<WireCell>, tanks: seq<WireTank>, timers: seq<int>)

  function Byte(b: bool): u8 {
    if b then 1 else 0
  }

  function PrintCell(c: WireCell): (b: Bytes)
    ensures |b| == 3
  {
    [c.kind, c.occupant, Byte(c.visible)]
  }

  function ReadCell(b: Bytes): WireCell
    requires |b| == 3
  {
    WireCell(b[0], b[1], b[2] != 0)
  }

  function PrintTank(t: WireTank): (b: Bytes)
    ensures |b| == 9
  {
    [t.x, t.y, t.direction, t.barrel, t.id, t.health, Byte(t.aimFocused), Byte(t.loaded), t.owner]
  }

  function ReadTank(b: Bytes): WireTank
    requires |b| == 9
  {
    WireTank(b[0], b[1], b[2], b[3], b[4], b[5], b[6] != 0, b[7] != 0, b[8])
  }

  predicate IsInt64(x: int) {
    -INT64_LIMIT <= x < INT64_LIMIT
  }

  function PrintTimer(x: int): (b: Bytes)
    requires IsInt64(x)
    ensures |b| == 8
  {
    Big(8, if x < 0 then x + 2 * INT64_LIMIT else x)
  }

  function ReadTimer(b: Bytes): int
    requires |b| == 8
  {
    if Value(b) < INT64_LIMIT then Value(b) else Value(b) - 2 * INT64_LIMIT
  }

  lemma TimerRoundTrip(x: int)
    requires IsInt64(x)
    ensures ReadTimer(PrintTimer(x)) == x
  {
    assert Limit(4) == 0x1_0000_0000;
    assert Limit(8) == 2 * INT64_LIMIT;
    BigThenValue(8, if x < 0 then x + 2 * INT64_LIMIT else x);
  }

  // ---------------------------------------------------------------- lists of fixed-size records

  function PrintCells(cs: seq<WireCell>): (b: Bytes)
    ensures |b| == 3 * |cs|
  {
    if cs == [] then [] else PrintCell(cs[0]) + PrintCells(cs[1..])
  }

  function ReadCells(b: Bytes, n: nat): (cs: seq<WireCell>)
    requires |b| >= 3 * n
    ensures |cs| == n
    decreases n
  {
    if n == 0 then [] else [ReadCell(b[..3])] + ReadCells(b[3..], n - 1)
  }

  lemma {:induction false} CellsRoundTrip(cs: seq<WireCell>, end: Bytes)
    ensures ReadCells(PrintCells(cs) + end, |cs|) == cs
    decreases |cs|
  {
    if cs != [] {
      var b := PrintCells(cs) + end;
      assert b[..3] == PrintCell(cs[0]) && b[3..] == PrintCells(cs[1..]) + end;
      CellsRoundTrip(cs[1..], end);
      assert [cs[0]] + cs[1..] == cs;
    }
  }

  function PrintTanks(ts: seq<WireTank>): (b: Bytes)
    ensures |b| == 9 * |ts|
  {
    if ts == [] then [] else PrintTank(ts[0]) + PrintTanks(ts[1..])
  }

  function ReadTanks(b: Bytes, n: nat): (ts: seq<WireTank>)
    requires |b| >= 9 * n
    ensures |ts| == n
    decreases n
  {
    if n == 0 then [] else [ReadTank(b[..9])] + ReadTanks(b[9..], n - 1)
  }

  lemma {:induction false} TanksRoundTrip(ts: seq<WireTank>, end: Bytes)
    ensures ReadTanks(PrintTanks(ts) + end, |ts|) == ts
    decreases |ts|
  {
    if ts != [] {
      var b := PrintTanks(ts) + end;
      assert b[..9] == PrintTank(ts[0]) && b[9..] == PrintTanks(ts[1..]) + end;
      TanksRoundTrip(ts[1..], end);
      assert [ts[0]] + ts[1..] == ts;
    }
  }

  predicate AllInt64(xs: seq<int>) {
    forall i :: 0 <= i < |xs| ==> IsInt64(xs[i])
  }

  function PrintTimers(xs: seq<int>): (b: Bytes)
    requires AllInt64(xs)
    ensures |b| == 8 * |xs|
  {
    if xs == [] then [] else PrintTimer(xs[0]) + PrintTimers(xs[1..])
  }

  function ReadTimers(b: Bytes, n: nat): (xs: seq<int>)
    requires |b| >= 8 * n
    ensures |xs| == n
    decreases n
  {
    if n == 0 then [] else [ReadTimer(b[..8])] + ReadTimers(b[8..], n - 1)
  }

  lemma {:induction false} TimersRoundTrip(xs: seq<int>, end: Bytes)
    requires AllInt64(xs)
    ensures ReadTimers(PrintTimers(xs) + end, |xs|) == xs
    decreases |xs|
  {
    if xs != [] {
      var b := PrintTimers(xs) + end;
      assert b[..8] == PrintTimer(xs[0]) && b[8..] == PrintTimers(xs[1..]) + end;
      TimerRoundTrip(xs[0]);
      TimersRoundTrip(xs[1..], end);
      assert [xs[0]] + xs[1..] == xs;
    }
  }

  // ---------------------------------------------------------------- the view

  /** The tanks are cut to the length that fits its byte; the timers are not. */
  function PrintView(v: PlayerView): Bytes
    requires AllInt64(v.timers)
  {
    [|v.tanks| % 256, v.player, v.width, v.height, v.fuel, v.state, |v.timers| % 256] + PrintBody(v)
  }

  predicate ValidView(v: PlayerView) {
    |v.cells| == Area(v.width, v.height) && |v.tanks| < 256 && |v.timers| < 256 && AllInt64(v.timers)
  }

  /** The cells, tanks and timers after the first seven bytes; more bytes are ignored. */
  function ParseBody(v: PlayerView, area: nat, tanks: nat, timers: nat, p: Bytes): Option<PlayerView> {
    if |p| < 3 * area || |p| - 3 * area < 9 * tanks || |p| - 3 * area - 9 * tanks < 8 * timers then None
    else
      var rest := p[3 * area..];
      Some(v.(cells := ReadCells(p, area), tanks := ReadTanks(rest, tanks),
              timers := ReadTimers(rest[9 * tanks..], timers)))
  }

  function Area(width: nat, height: nat): nat {
    width * height
  }

  function ParseView(p: Bytes): Option<PlayerView> {
    if |p| < FIXED_BYTES_SIZE then None
    else ParseBody(PlayerView(p[1], p[2], p[3], p[4], p[5], [], [], []),
                   Area(p[2], p[3]), p[0], p[6], p[FIXED_BYTES_SIZE..])
  }

  /** The length a payload promises in its first seven bytes. */
  function Promised(p: Bytes): nat
    requires |p| >= FIXED_BYTES_SIZE
  {
    var tanks: nat, timers: nat := p[0], p[6];
    FIXED_BYTES_SIZE + 3 * Area(p[2], p[3]) + 9 * tanks + 8 * timers
  }

  function PrintBody(v: PlayerView): (b: Bytes)
    requires AllInt64(v.timers)
  {
    PrintCells(v.cells) + (PrintTanks(v.tanks[..|v.tanks| % 256]) + PrintTimers(v.timers))
  }

  lemma BodyRoundTrip(v: PlayerView, end: Bytes)
    requires AllInt64(v.timers) && |v.tanks| < 256
    ensures ParseBody(v.(cells := [], tanks := [], timers := []), |v.cells|, |v.tanks|, |v.timers|,
                      PrintBody(v) + end) == Some(v)
  {
    var timers := PrintTimers(v.timers) + end;
    var tanks := PrintTanks(v.tanks) + timers;
    var p := PrintCells(v.cells) + tanks;
    assert v.tanks[..|v.tanks|] == v.tanks;
    Regroup(PrintTanks(v.tanks), PrintTimers(v.timers), end);
    Regroup(PrintCells(v.cells), PrintTanks(v.tanks) + PrintTimers(v.timers), end);
    assert PrintBody(v) + end == p;
    assert p[3 * |v.cells|..] == tanks && tanks[9 * |v.tanks|..] == timers;
    CellsRoundTrip(v.cells, tanks);
    TanksRoundTrip(v.tanks, timers);
    TimersRoundTrip(v.timers, end);
  }

  lemma SevenBytes(a: u8, b: u8, c: u8, d: u8, e: u8, f: u8, g: u8, rest: Bytes)
    ensures var p := [a, b, c, d, e, f, g] + rest;
            p[0] == a && p[1] == b && p[2] == c && p[3] == d && p[4] == e && p[5] == f && p[6] == g && p[7..] == rest
  {
  }

  /** Parsing inverts printing for up to 255 tanks and timers on any grid, whatever follows. */
  lemma ViewRoundTrip(v: PlayerView, end: Bytes)
    requires ValidView(v)
    ensures ParseView(PrintView(v) + end) == Some(v)
  {
    var head := [|v.tanks|, v.player, v.width, v.height, v.fuel, v.state, |v.timers|];
    Regroup(head, PrintBody(v), end);
    HeadRead(v, PrintView(v) + end, PrintBody(v) + end);
    BodyRoundTrip(v, end);
  }

  /** What the first seven bytes say, whatever follows them. */
  lemma HeadRead(v: PlayerView, p: Bytes, body: Bytes)
    requires |v.tanks| < 256 && |v.timers| < 256
    requires p == [|v.tanks|, v.player, v.width, v.height, v.fuel, v.state, |v.timers|] + body
    ensures ParseView(p) ==
            ParseBody(v.(cells := [], tanks := [], timers := []), Area(v.width, v.height), |v.tanks|, |v.timers|, body)
  {
    SevenBytes(|v.tanks|, v.player, v.width, v.height, v.fuel, v.state, |v.timers|, body);
  }

  // ---------------------------------------------------------------- what is read is valid

  lemma ReadTimerFits(b: Bytes)
    requires |b| == 8
    ensures IsInt64(ReadTimer(b))
  {
    assert Limit(4) == 0x1_0000_0000;
    assert Limit(8) == 2 * INT64_LIMIT;
    ValueThenBig(b);
  }

  lemma {:induction false} ReadTimersFit(b: Bytes, n: nat)
    requires |b| >= 8 * n
    ensures AllInt64(ReadTimers(b, n))
    decreases n
  {
    if n > 0 {
      ReadTimerFits(b[..8]);
      ReadTimersFit(b[8..], n - 1);
    }
  }

  /** A payload is read exactly when it is as long as its first seven bytes promise.  What is read is a
      view the server could have sent, and its print is as long as promised and reads back the same: only
      the bytes of flags can change, from another nonzero value to one. */
  lemma ViewParsePrintParse(p: Bytes)
    ensures ParseView(p).Some? <==> |p| >= FIXED_BYTES_SIZE && |p| >= Promised(p)
    ensures ParseView(p).Some? ==>
              var v := ParseView(p).value;
              ValidView(v) && |PrintView(v)| == Promised(p) && ParseView(PrintView(v)) == Some(v)
  {
    if ParseView(p).Some? {
      var v := ParseView(p).value;
      ParsedViewIsValid(p, v);
      ViewRoundTrip(v, []);
      assert PrintView(v) + [] == PrintView(v);
      assert v.tanks[..|v.tanks|] == v.tanks;
    }
  }

  lemma ParsedViewIsValid(p: Bytes, v: PlayerView)
    requires ParseView(p) == Some(v)
    ensures ValidView(v) && |v.tanks| == p[0] && |v.timers| == p[6] && v.width == p[2] && v.height == p[3]
  {
    var area, tanks := Area(p[2], p[3]), p[0];
    ReadTimersFit(p[FIXED_BYTES_SIZE..][3 * area..][9 * tanks..], p[6]);
  }
}
