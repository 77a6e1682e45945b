/** Small shared types: optional values and the fixed-width integers of the source. */
module Basics {

  datatype Option<+T> = None | Some(value: T)

  /** `uint8_t`: wrap-around is always written out with Wrap8. */
  type u8 = x: int | 0 <= x < 256

  /** No rating falls below this. */
  const ELO_FLOOR := 500

  /** The value of an integer after it is stored in a `uint8_t`. */
  function Wrap8(x: int): u8 {
    x % 256
  }

  function Min(a: int, b: int): int {
    if a <= b then a else b
  }

  lemma {:induction false} RowsApart(w: nat, y: nat, y': nat)
    requires y < y'
    ensures w * y + w <= w * y'
  {
    assert w * y' == w * (y' - 1) + w;
    if y + 1 < y' {
      RowsApart(w, y, y' - 1);
    }
  }

  lemma FewerRows(w: nat, a: nat, b: nat)
    requires w * a < w * b
    ensures a < b
  {
    if b < a {
      RowsApart(w, b, a);
    }
  }

  /** A cell (x, y) of a w-by-h grid has an offset below w * h. */
  lemma OffsetFits(w: nat, h: nat, x: nat, y: nat)
    requires x < w && y < h
    ensures 0 <= x + w * y < w * h
  {
    RowsApart(w, y, h);
  }

  /** Equal offsets in rows of length w come from equal coordinates. */
  lemma OffsetInjective(w: nat, x: nat, y: nat, x': nat, y': nat)
    requires x < w && x' < w && x + w * y == x' + w * y'
    ensures x == x' && y == y'
  {
    if y < y' {
      RowsApart(w, y, y');
    } else if y' < y {
      RowsApart(w, y', y);
    }
  }
}
