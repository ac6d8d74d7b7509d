// Hand layout (composables/useCardPositioning.ts): card size, padding and overlap as functions
// of the viewport width, and the position and rotation of each card in the hand.
module Positioning {
  import opened Types

  const BaseWidth := 2.0
  const BaseHeight := 3.0
  const MaxPadding := 0.15
  const DepthStep := 0.01
  const TiltX := -0.08
  const FanStep := 0.01
  /** Above this many cards the padding shrinks in proportion, and the fan rotation starts above 5. */
  const PaddingCardLimit := 6
  const FanCardLimit := 5

  function Min(a: real, b: real): real { if a < b then a else b }
  function Max(a: real, b: real): real { if a > b then a else b }

  /** `Math.min(Math.max(x, lo), hi)`. */
  function Clamp(x: real, lo: real, hi: real): (r: real)
    requires lo <= hi
    ensures lo <= r <= hi
    ensures lo <= x <= hi ==> r == x
  {
    Min(Max(x, lo), hi)
  }

  /** The hand scale factor: the viewport width over 12, kept within [0.5, 1.4]. */
  function ScaleFactor(viewportWidth: real): (sf: real)
    ensures 0.5 <= sf <= 1.4
    ensures 6.0 <= viewportWidth <= 16.8 ==> sf == viewportWidth / 12.0
  {
    Clamp(viewportWidth / 12.0, 0.5, 1.4)
  }

  datatype Dimensions = Dimensions(width: real, height: real)

  /** `cardDimensions`: a 2 x 3 card scaled by the scale factor. */
  function CardDimensions(viewportWidth: real): (d: Dimensions)
    ensures d.height == 1.5 * d.width
    ensures 1.0 <= d.width <= 2.8
    ensures d.width == BaseWidth * ScaleFactor(viewportWidth)
  {
    var sf := ScaleFactor(viewportWidth);
    Dimensions(BaseWidth * sf, BaseHeight * sf)
  }

  /** `cardPadding`: 1.5% of the viewport width, never above 0.15. */
  function CardPadding(viewportWidth: real): (p: real)
    ensures p <= MaxPadding
    ensures viewportWidth >= 0.0 ==> p >= 0.0
    ensures viewportWidth <= 10.0 ==> p == viewportWidth * 0.015
  {
    Min(viewportWidth * 0.015, MaxPadding)
  }

  /**
   * `calculateOverlapFactor`. A zero viewport width makes `8 / width` infinite in the source,
   * so the result is then the cap 0.7; a negative width gives a negative quotient and 0.4.
   */
  function OverlapFactor(viewportWidth: real, totalCards: int): (r: real)
    ensures totalCards >= 8 ==> r == 0.4 + (totalCards - 8) as real * 0.05
    ensures totalCards <= 3 ==> r == 0.1
    ensures 4 <= totalCards <= 7 ==> 0.1 <= r <= 0.7
    ensures r >= 0.1
  {
    if totalCards >= 8 then 0.4 + (totalCards - 8) as real * 0.05
    else if totalCards <= 3 then 0.1
    else if viewportWidth == 0.0 then 0.7
    else
      var viewportFactor := Max(8.0 / viewportWidth, 0.4);
      var cardFactor := Min(totalCards as real / 4.0, 1.8);
      Min(0.3 * viewportFactor * cardFactor, 0.7)
  }

  /** Fewer than twenty cards always overlap by less than a full card. */
  lemma OverlapBelowOne(viewportWidth: real, totalCards: int)
    ensures totalCards <= 19 ==> OverlapFactor(viewportWidth, totalCards) < 1.0
  {
  }

  /** `effectivePadding`: above six cards the padding shrinks in proportion to the count. */
  function EffectivePadding(padding: real, totalCards: int): (r: real)
    requires totalCards > 0
    ensures totalCards <= PaddingCardLimit ==> r == padding
    ensures padding >= 0.0 ==> 0.0 <= r <= padding
  {
    if totalCards > PaddingCardLimit then
      var shrink := PaddingCardLimit as real / totalCards as real;
      ProductSigns(padding, shrink);
      ProductSigns(padding, 1.0 - shrink);
      padding * shrink
    else padding
  }

  /**
   * The x distance between neighbouring cards: the visible part of a card plus the padding.
   * With a non-negative width and at most 19 cards each card lies to the right of the previous one.
   */
  function VisibleCardWidth(viewportWidth: real, totalCards: int): (w: real)
    requires totalCards > 1
    ensures w - EffectivePadding(CardPadding(viewportWidth), totalCards) <= 0.9 * CardDimensions(viewportWidth).width
    ensures viewportWidth >= 0.0 && totalCards <= 19 ==> w > 0.0
  {
    var width := CardDimensions(viewportWidth).width;
    var o := OverlapFactor(viewportWidth, totalCards);
    var padding := EffectivePadding(CardPadding(viewportWidth), totalCards);
    StepBelow(width, o, padding);
    OverlapBelowOne(viewportWidth, totalCards);
    StepPositive(width, o, padding);
    width * (1.0 - o) + padding
  }

  /** A positive width, an overlap below one and a non-negative padding give a positive step. */
  lemma StepPositive(w: real, o: real, p: real)
    ensures w > 0.0 && o < 1.0 && p >= 0.0 ==> w * (1.0 - o) + p > 0.0
  {
    ProductSigns(w, 1.0 - o);
  }

  /** With a positive width and an overlap of at least 0.1, the step less its padding is at most 0.9 widths. */
  lemma StepBelow(width: real, o: real, padding: real)
    ensures width > 0.0 && o >= 0.1 ==> width * (1.0 - o) + padding - padding <= 0.9 * width
  {
    if width > 0.0 && o >= 0.1 {
      assert width * (1.0 - o) == width - width * o;
      assert width * o >= width * 0.1;
    }
  }

  lemma ProductSigns(x: real, y: real)
    ensures x > 0.0 && y > 0.0 ==> x * y > 0.0
    ensures x >= 0.0 && y >= 0.0 ==> x * y >= 0.0
    ensures x * y + x * (1.0 - y) == x
  {
    assert x * y + x * (1.0 - y) == x * (y + (1.0 - y));
  }

  /**
   * The x of card `index` in a row whose cards are `step` apart: the row of `totalCards`
   * cards of width `cardWidth` is centred on 0.
   */
  function RowX(step: real, cardWidth: real, index: int, totalCards: int): real {
    var totalWidth := step * (totalCards - 1) as real + cardWidth;
    var startX := -totalWidth / 2.0 + cardWidth / 2.0;
    startX + index as real * step
  }

  /** A card's x is the step times its offset from the middle index `(totalCards - 1) / 2`. */
  lemma RowXOffset(step: real, cardWidth: real, index: int, totalCards: int)
    ensures RowX(step, cardWidth, index, totalCards)
            == (index as real - (totalCards - 1) as real / 2.0) * step
  {
    var m := (totalCards - 1) as real;
    var i := index as real;
    assert -(step * m + cardWidth) / 2.0 + cardWidth / 2.0 == -(step * m) / 2.0;
    assert (i - m / 2.0) * step == i * step - (m / 2.0) * step;
    assert (m / 2.0) * step == (step * m) / 2.0;
  }

  /** `getCardPosition`: the hand is a centred row, flat in y, stepping back in z. */
  function GetCardPosition(viewportWidth: real, index: int, totalCards: int): (p: Vec3)
    ensures totalCards <= 1 ==> p == Origin
    ensures p.y == 0.0
    ensures totalCards > 1 ==> p.z == -(index as real) * DepthStep
  {
    if totalCards <= 1 then Origin
    else
      Vec3(RowX(VisibleCardWidth(viewportWidth, totalCards), CardDimensions(viewportWidth).width, index, totalCards),
           0.0, -(index as real) * DepthStep)
  }

  /** The x coordinate is the step times the offset of the index from the middle of the row. */
  lemma CardPositionX(viewportWidth: real, index: int, totalCards: int)
    requires totalCards > 1
    ensures GetCardPosition(viewportWidth, index, totalCards).x
            == (index as real - (totalCards - 1) as real / 2.0) * VisibleCardWidth(viewportWidth, totalCards)
  {
    RowXOffset(VisibleCardWidth(viewportWidth, totalCards), CardDimensions(viewportWidth).width, index, totalCards);
  }

  /** In any such row neighbours are one step apart and mirrored cards have opposite x. */
  lemma RowXShape(step: real, cardWidth: real, index: int, totalCards: int)
    ensures RowX(step, cardWidth, index + 1, totalCards) - RowX(step, cardWidth, index, totalCards) == step
    ensures RowX(step, cardWidth, index, totalCards) + RowX(step, cardWidth, totalCards - 1 - index, totalCards) == 0.0
  {
    var half := (totalCards - 1) as real / 2.0;
    RowXOffset(step, cardWidth, index, totalCards);
    RowXOffset(step, cardWidth, index + 1, totalCards);
    RowXOffset(step, cardWidth, totalCards - 1 - index, totalCards);
    assert (index as real + 1.0 - half) * step - (index as real - half) * step == step;
    assert (index as real - half) * step + ((totalCards - 1 - index) as real - half) * step
           == (index as real + (totalCards - 1 - index) as real - 2.0 * half) * step;
  }

  /** Neighbouring cards are exactly one visible card width apart. */
  lemma CardPositionStep(viewportWidth: real, index: int, totalCards: int)
    requires totalCards > 1
    ensures GetCardPosition(viewportWidth, index + 1, totalCards).x
            - GetCardPosition(viewportWidth, index, totalCards).x
            == VisibleCardWidth(viewportWidth, totalCards)
  {
    RowXShape(VisibleCardWidth(viewportWidth, totalCards), CardDimensions(viewportWidth).width, index, totalCards);
  }

  /** The row is centred: mirrored indices have opposite x. */
  lemma CardPositionCentred(viewportWidth: real, index: int, totalCards: int)
    requires totalCards > 1
    ensures GetCardPosition(viewportWidth, index, totalCards).x
            + GetCardPosition(viewportWidth, totalCards - 1 - index, totalCards).x == 0.0
  {
    RowXShape(VisibleCardWidth(viewportWidth, totalCards), CardDimensions(viewportWidth).width, index, totalCards);
  }

  /** Cards further right sit further back. */
  lemma CardDepthDecreasing(viewportWidth: real, i: int, j: int, totalCards: int)
    requires totalCards > 1 && i < j
    ensures GetCardPosition(viewportWidth, j, totalCards).z < GetCardPosition(viewportWidth, i, totalCards).z
  {
  }

  /** `getCardRotation` as written: the fan turns about `totalCards / 2`. */
  function GetCardRotation(index: int, totalCards: int): (r: Vec3)
    ensures r.x == TiltX && r.z == 0.0
    ensures totalCards <= FanCardLimit ==> r.y == 0.0
  {
    Vec3(TiltX, if totalCards > FanCardLimit then (index as real - totalCards as real / 2.0) * FanStep else 0.0, 0.0)
  }

  /** Six cards as written: the outer cards turn by different amounts. */
  lemma FanLopsided()
    ensures GetCardRotation(0, 6).y == -0.03 && GetCardRotation(5, 6).y == 0.02
  {
  }

  /** The fan turned about the middle of the row, `(totalCards - 1) / 2`, as the rest of the layout is. */
  function GetCardRotationCentred(index: int, totalCards: int): (r: Vec3)
    ensures r.x == TiltX && r.z == 0.0
    ensures totalCards <= FanCardLimit ==> r.y == 0.0
  {
    Vec3(TiltX, if totalCards > FanCardLimit then (index as real - (totalCards - 1) as real / 2.0) * FanStep else 0.0, 0.0)
  }

  /** The centred fan is symmetric: mirrored cards turn by opposite amounts, and the turn grows with the index. */
  lemma FanCentredSymmetric(i: int, j: int, totalCards: int)
    requires totalCards > FanCardLimit
    ensures GetCardRotationCentred(totalCards - 1 - i, totalCards).y == -GetCardRotationCentred(i, totalCards).y
    ensures i < j ==> GetCardRotationCentred(i, totalCards).y < GetCardRotationCentred(j, totalCards).y
  {
  }
}
