/** A player's view on its way to the client: computed from the board, printed, parsed. */
module Deliveries {
  import opened Basics
  import opened Boards
  import opened Matches
  import opened Vision
  import opened ViewCodec

  /** The byte a cell type is sent as. */
  function KindByte(kind: CellType): u8 {
    match kind
    case Flat => 0
    case Foliage => 1
    case Terrain => 2
  }

  function KindOf(b: u8): CellType {
    if b == 0 then Flat else if b == 1 then Foliage else Terrain
  }

  function PhaseByte(phase: Phase): u8 {
    match phase
    case Setup => 0
    case Play => 1
    case Concluded => 2
  }

  function CellOut(c: Cell): WireCell {
    WireCell(KindByte(c.kind), c.occupant, c.visible)
  }

  function CellIn(c: WireCell): Cell {
    Cell(KindOf(c.kind), c.occupant, c.visible)
  }

  function TankOut(t: Tank): WireTank {
    WireTank(t.pos.x, t.pos.y, t.direction, t.barrel, t.id, t.health, t.aimFocused, t.loaded, t.owner)
  }

  function TankIn(t: WireTank): Tank {
    Tank(Vec2(t.x, t.y), t.direction, t.barrel, t.id, t.health, t.aimFocused, t.loaded, t.owner)
  }

  /** The view as it is handed to the printer. */
  function ViewOut(v: View): (w: (seq<WireCell>, seq<WireTank>))
    ensures |w.0| == |v.cells| && |w.1| == |v.listed|
  {
    (seq(|v.cells|, i requires 0 <= i < |v.cells| => CellOut(v.cells[i])),
     seq(|v.listed|, i requires 0 <= i < |v.listed| => TankOut(v.listed[i])))
  }

  /** The view the client gets out of what it has parsed. */
  function ViewIn(w: PlayerView): View {
    View(seq(|w.cells|, i requires 0 <= i < |w.cells| => CellIn(w.cells[i])),
         seq(|w.tanks|, i requires 0 <= i < |w.tanks| => TankIn(w.tanks[i])))
  }

  /** What compute_all_views sends to a player: the view, whose turn it is, fuel, phase and timers. */
  function Sent(m: Match, player: nat, timers: seq<int>): (w: PlayerView)
    requires m.Shaped() && player < |m.board.players|
    ensures |w.cells| == |m.board.cells| && w.timers == timers
    ensures |w.tanks| == |ComputeView(m.board, player).listed|
  {
    var out := ViewOut(ComputeView(m.board, player));
    PlayerView(m.cur, m.board.width, m.board.height, Wrap8(m.fuel), PhaseByte(m.phase), out.0, out.1, timers)
  }

  lemma OutAndIn(m: Match, player: nat, timers: seq<int>)
    requires m.Shaped() && player < |m.board.players|
    ensures ViewIn(Sent(m, player, timers)) == ComputeView(m.board, player)
  {
    var v, back := ComputeView(m.board, player), ViewIn(Sent(m, player, timers));
    assert forall i :: 0 <= i < |v.cells| ==> back.cells[i] == v.cells[i];
    assert forall i :: 0 <= i < |v.listed| ==> back.listed[i] == v.listed[i];
    assert back.cells == v.cells && back.listed == v.listed;
  }

  /** Up to the count of listed tanks that its byte can hold, the client gets back what was printed, and
      beyond that it does not. */
  lemma ReadBackIff(w: PlayerView)
    requires |w.cells| == Area(w.width, w.height) && |w.timers| < 256 && AllInt64(w.timers)
    ensures ParseView(PrintView(w)) == Some(w) <==> |w.tanks| < 256
  {
    if |w.tanks| < 256 {
      ViewRoundTrip(w, []);
      assert PrintView(w) + [] == PrintView(w);
    } else if ParseView(PrintView(w)) == Some(w) {
      ViewParsePrintParse(PrintView(w));
    }
  }

  /** The client sees exactly the view the server computed, whenever its tanks fit the count; with at most
      four tanks a player they always do. */
  lemma ClientSeesTheView(m: Match, player: nat, timers: seq<int>)
    requires m.Shaped() && player < |m.board.players| && |timers| < 256 && AllInt64(timers)
    ensures var w := Sent(m, player, timers);
            && (ParseView(PrintView(w)) == Some(w) <==> |ComputeView(m.board, player).listed| < 256)
            && (m.board.numTanks <= 4 ==> ParseView(PrintView(w)) == Some(w))
            && ViewIn(w) == ComputeView(m.board, player)
  {
    OutAndIn(m, player, timers);
    ReadBackIff(Sent(m, player, timers));
    ViewFitsByte(m.board, player);
  }

  /** The bytes a player is sent tell it nothing it cannot see: they are the same for two matches with the
      same public state, map and own tanks that agree on the occupants of the cells the player sees. */
  lemma BytesTellNothingElse(m: Match, m': Match, player: nat, timers: seq<int>)
    requires m.Shaped() && m'.Shaped() && m.cur == m'.cur && m.fuel == m'.fuel && m.phase == m'.phase
    requires SameOwn(m.board, m'.board, player) && |m.board.cells| == |m'.board.cells| && AllInt64(timers)
    requires forall c :: 0 <= c < |m.board.cells| && ComputeView(m.board, player).cells[c].visible ==>
               AgreeAt(m.board, m'.board, c)
    ensures PrintView(Sent(m, player, timers)) == PrintView(Sent(m', player, timers))
  {
    NonInterference(m.board, m'.board, player);
  }
}
