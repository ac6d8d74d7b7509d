// Wall layout (composables/useWallLayout.ts): played cards on a grid of four or five
// columns, each row centred, rows going down, later cards slightly in front.
module WallLayout {
  import opened Types

  const BaseCardWidth := 3.0
  const BaseCardHeight := 3.5
  const SpacingMargin := 1.1
  const WallScaleShrink := 0.9
  const WallDepthStep := 0.01

  datatype Layout = Layout(cardsPerRow: int, horizontalSpacing: real, verticalSpacing: real, scaleFactor: real)

  /** `layoutConfig`: five columns on a viewport wider than 15, four otherwise; spacing from the scale factor. */
  function LayoutConfig(viewportWidth: real): (c: Layout)
    ensures c.cardsPerRow == (if viewportWidth > 15.0 then 5 else 4)
    ensures 0.7 <= c.scaleFactor <= 1.2
    ensures 10.5 <= viewportWidth <= 18.0 ==> c.scaleFactor == viewportWidth / 15.0
    ensures c.horizontalSpacing == 3.3 * c.scaleFactor && c.verticalSpacing == 3.85 * c.scaleFactor
    ensures c.horizontalSpacing > 0.0 && c.verticalSpacing > 0.0
  {
    var q := viewportWidth / 15.0;
    var lifted := if q > 0.7 then q else 0.7;
    var sf := if lifted < 1.2 then lifted else 1.2;
    Layout(if viewportWidth > 15.0 then 5 else 4,
           BaseCardWidth * sf * SpacingMargin,
           BaseCardHeight * sf * SpacingMargin,
           sf)
  }

  /** JavaScript `%`: the remainder takes the sign of the dividend. */
  function JsRem(a: int, b: int): (r: int)
    requires b > 0
    ensures a >= 0 ==> r == a % b
    ensures a < 0 ==> -b < r <= 0
  {
    if a >= 0 then a % b else -((-a) % b)
  }

  /** `Math.floor(index / cardsPerRow)`: Dafny's `/` by a positive divisor already rounds down. */
  function Row(index: int, cardsPerRow: int): int
    requires cardsPerRow > 0
  {
    index / cardsPerRow
  }

  /** The number of cards in a row: the cards left over, but no more than a full row. */
  function RowWidth(totalCards: int, row: int, cardsPerRow: int): int {
    var left := totalCards - row * cardsPerRow;
    if left < cardsPerRow then left else cardsPerRow
  }

  /** The x of column `col` in a row of `rowWidth` cards: the full-row offset shifted by half the gap. */
  function ColumnX(config: Layout, col: int, rowWidth: int): (x: real)
    ensures x == (col as real - (rowWidth - 1) as real / 2.0) * config.horizontalSpacing
  {
    var rowOffset := (config.cardsPerRow - rowWidth) as real / 2.0;
    (col as real - (config.cardsPerRow - 1) as real / 2.0 + rowOffset) * config.horizontalSpacing
  }

  /** A column's x is its offset from the middle of the row's own cards, so mirrored columns cancel. */
  lemma ColumnCentred(config: Layout, col: int, rowWidth: int)
    ensures ColumnX(config, col, rowWidth) + ColumnX(config, rowWidth - 1 - col, rowWidth) == 0.0
  {
    var half := (rowWidth - 1) as real / 2.0;
    OppositeOffsets(col as real, (rowWidth - 1 - col) as real, half, config.horizontalSpacing);
  }

  /** `getWallPosition`. */
  function GetWallPosition(viewportWidth: real, index: int, totalCards: int): (p: Vec3)
    ensures totalCards == 0 ==> p == Origin
    ensures totalCards != 0 ==> p.z == index as real * WallDepthStep
    ensures totalCards != 0 ==>
              p.y == -(Row(index, LayoutConfig(viewportWidth).cardsPerRow) as real)
                     * LayoutConfig(viewportWidth).verticalSpacing
  {
    if totalCards == 0 then Origin
    else
      var config := LayoutConfig(viewportWidth);
      var row := Row(index, config.cardsPerRow);
      var col := JsRem(index, config.cardsPerRow);
      var rowWidth := RowWidth(totalCards, row, config.cardsPerRow);
      Vec3(ColumnX(config, col, rowWidth), -(row as real) * config.verticalSpacing, index as real * WallDepthStep)
  }

  /** A non-negative index is `row * cardsPerRow + col` with the column inside the row. */
  lemma GridDecomposition(viewportWidth: real, index: int)
    requires index >= 0
    ensures var cpr := LayoutConfig(viewportWidth).cardsPerRow;
            var col := JsRem(index, cpr);
            index == Row(index, cpr) * cpr + col && 0 <= col < cpr
  {
  }

  /** The card in column `col` of row `row`. */
  lemma GridCell(row: int, col: int, cardsPerRow: int)
    requires cardsPerRow > 0 && row >= 0 && 0 <= col < cardsPerRow
    ensures Row(row * cardsPerRow + col, cardsPerRow) == row
    ensures JsRem(row * cardsPerRow + col, cardsPerRow) == col
  {
    var i := row * cardsPerRow + col;
    assert i >= 0;
    assert i / cardsPerRow == row && i % cardsPerRow == col by {
      DivModUnique(i, cardsPerRow, row, col);
    }
  }

  /** Division with remainder has one answer. */
  lemma DivModUnique(i: int, d: int, q: int, r: int)
    requires d > 0 && 0 <= r < d && i == q * d + r
    ensures i / d == q && i % d == r
  {
    var q', r' := i / d, i % d;
    assert (q - q') * d == r' - r;
    AtLeastOneMultiple(q - q', d);
    AtLeastOneMultiple(q' - q, d);
  }

  lemma AtLeastOneMultiple(k: int, d: int)
    ensures k >= 1 && d > 0 ==> k * d >= d
  {
    if k >= 1 && d > 0 {
      assert k * d == (k - 1) * d + d;
      assert (k - 1) * d >= 0;
    }
  }

  /** The card in column `col` of row `row` takes that column's x in that row. */
  lemma WallPositionX(viewportWidth: real, row: int, col: int, totalCards: int)
    requires row >= 0 && 0 <= col < LayoutConfig(viewportWidth).cardsPerRow && totalCards != 0
    ensures GetWallPosition(viewportWidth, row * LayoutConfig(viewportWidth).cardsPerRow + col, totalCards).x
            == ColumnX(LayoutConfig(viewportWidth), col, RowWidth(totalCards, row, LayoutConfig(viewportWidth).cardsPerRow))
  {
    GridCell(row, col, LayoutConfig(viewportWidth).cardsPerRow);
  }

  /** Each row is centred: the cards in columns `col` and `rowWidth - 1 - col` have opposite x. */
  lemma WallRowCentred(viewportWidth: real, row: int, col: int, totalCards: int)
    requires row >= 0 && totalCards != 0
    requires 0 <= col < RowWidth(totalCards, row, LayoutConfig(viewportWidth).cardsPerRow)
    ensures GetWallPosition(viewportWidth, row * LayoutConfig(viewportWidth).cardsPerRow + col, totalCards).x
            + GetWallPosition(viewportWidth, row * LayoutConfig(viewportWidth).cardsPerRow
                                             + (RowWidth(totalCards, row, LayoutConfig(viewportWidth).cardsPerRow) - 1 - col),
                              totalCards).x
            == 0.0
  {
    var rowWidth := RowWidth(totalCards, row, LayoutConfig(viewportWidth).cardsPerRow);
    WallPositionX(viewportWidth, row, col, totalCards);
    WallPositionX(viewportWidth, row, rowWidth - 1 - col, totalCards);
    ColumnCentred(LayoutConfig(viewportWidth), col, rowWidth);
  }

  lemma OppositeOffsets(a: real, b: real, half: real, spacing: real)
    requires a + b == 2.0 * half
    ensures (a - half) * spacing + (b - half) * spacing == 0.0
  {
    assert (a - half) * spacing + (b - half) * spacing == (a + b - 2.0 * half) * spacing;
  }

  /** Later cards sit further forward. */
  lemma WallDepthIncreasing(viewportWidth: real, i: int, j: int, totalCards: int)
    requires totalCards != 0 && i < j
    ensures GetWallPosition(viewportWidth, i, totalCards).z < GetWallPosition(viewportWidth, j, totalCards).z
  {
  }

  /** `wallCardScale`: the same factor, nine tenths of the layout scale, on all three axes. */
  function WallCardScale(viewportWidth: real): (s: Vec3)
    ensures s.x == s.y == s.z == WallScaleShrink * LayoutConfig(viewportWidth).scaleFactor
    ensures 0.63 <= s.x <= 1.08
  {
    var scale := LayoutConfig(viewportWidth).scaleFactor * WallScaleShrink;
    Vec3(scale, scale, scale)
  }
}
