// Render orders (composables/useRenderOrder.ts): in the hand the outer cards draw on top of
// the middle ones; on the wall and in a stack later cards draw on top.
module RenderOrder {
  import opened Types

  const BaseOrder := 1000
  const EdgeBoost := 100

  /** How far `index` is from the middle of a hand of `totalCards`, as a fraction of the half-width. */
  function NormalizedDistance(index: int, totalCards: int): (d: real)
    requires totalCards > 1
    ensures d >= 0.0
  {
    var centerIndex := (totalCards - 1) as real / 2.0;
    DivideMonotone(0.0, Abs(index as real - centerIndex), centerIndex);
    Abs(index as real - centerIndex) / centerIndex
  }

  /** `calculateHandRenderOrder`: 1000 for a lone card, else 1000 plus the floor of 100 times the distance. */
  function HandRenderOrder(index: int, totalCards: int): (r: int)
    ensures totalCards <= 1 ==> r == BaseOrder
    ensures r >= BaseOrder
  {
    if totalCards <= 1 then BaseOrder
    else
      FloorMonotone(0.0, NormalizedDistance(index, totalCards) * EdgeBoost as real);
      BaseOrder + (NormalizedDistance(index, totalCards) * EdgeBoost as real).Floor
  }

  lemma DivideMonotone(a: real, b: real, c: real)
    requires 0.0 <= a <= b && c > 0.0
    ensures 0.0 <= a / c <= b / c
  {
    assert a / c * c == a && b / c * c == b;
  }

  lemma FloorMonotone(x: real, y: real)
    requires x <= y
    ensures x.Floor <= y.Floor
  {
  }

  /** For a card in the hand the order lies between 1000 and 1100. */
  lemma HandRenderOrderBounds(index: int, totalCards: int)
    requires 0 <= index < totalCards
    ensures BaseOrder <= HandRenderOrder(index, totalCards) <= BaseOrder + EdgeBoost
  {
    if totalCards > 1 {
      var c := (totalCards - 1) as real / 2.0;
      DivideMonotone(Abs(index as real - c), c, c);
      FloorMonotone(0.0, NormalizedDistance(index, totalCards) * EdgeBoost as real);
      FloorMonotone(NormalizedDistance(index, totalCards) * EdgeBoost as real, EdgeBoost as real);
    }
  }

  /** The two outer cards draw on top of all others, at 1100. */
  lemma HandRenderOrderEdges(totalCards: int)
    requires totalCards > 1
    ensures HandRenderOrder(0, totalCards) == BaseOrder + EdgeBoost
    ensures HandRenderOrder(totalCards - 1, totalCards) == BaseOrder + EdgeBoost
  {
    var c := (totalCards - 1) as real / 2.0;
    assert Abs(0.0 - c) == c && Abs((totalCards - 1) as real - c) == c;
    assert c / c == 1.0;
  }

  /** In a hand of odd size the middle card is at the bottom, at 1000. */
  lemma HandRenderOrderCentre(totalCards: int)
    requires totalCards > 1 && totalCards % 2 == 1
    ensures HandRenderOrder((totalCards - 1) / 2, totalCards) == BaseOrder
  {
    assert ((totalCards - 1) / 2) as real == (totalCards - 1) as real / 2.0;
  }

  /** Mirrored cards get the same order. */
  lemma HandRenderOrderSymmetric(index: int, totalCards: int)
    ensures HandRenderOrder(totalCards - 1 - index, totalCards) == HandRenderOrder(index, totalCards)
  {
    if totalCards > 1 {
      var c := (totalCards - 1) as real / 2.0;
      assert Abs((totalCards - 1 - index) as real - c) == Abs(index as real - c);
    }
  }

  /** A card further from the middle never draws below one closer to it. */
  lemma HandRenderOrderMonotone(i: int, j: int, totalCards: int)
    requires totalCards > 1
    requires var c := (totalCards - 1) as real / 2.0; Abs(i as real - c) <= Abs(j as real - c)
    ensures HandRenderOrder(i, totalCards) <= HandRenderOrder(j, totalCards)
  {
    var c := (totalCards - 1) as real / 2.0;
    DivideMonotone(Abs(i as real - c), Abs(j as real - c), c);
    FloorMonotone(NormalizedDistance(i, totalCards) * EdgeBoost as real,
                  NormalizedDistance(j, totalCards) * EdgeBoost as real);
  }

  /** `calculateWallRenderOrder`: 1000 plus the index; the count is not used. */
  function WallRenderOrder(index: int, totalCards: int): (r: int)
    ensures index >= 0 ==> r >= BaseOrder
    ensures index < 0 ==> r < BaseOrder
    ensures r == StackRenderOrder(index)
  {
    BaseOrder + index
  }

  /** `calculateStackRenderOrder`: 1000 plus the index. */
  function StackRenderOrder(index: int): (r: int)
    ensures index >= 0 ==> r >= BaseOrder
    ensures index < 0 ==> r < BaseOrder
  {
    BaseOrder + index
  }

  /** Later cards draw on top, the wall order ignores the count, and both layouts agree. */
  lemma IndexOrdersIncrease(i: int, j: int, n1: int, n2: int)
    ensures i < j ==> WallRenderOrder(i, n1) < WallRenderOrder(j, n2) && StackRenderOrder(i) < StackRenderOrder(j)
    ensures WallRenderOrder(i, n1) == WallRenderOrder(i, n2) == StackRenderOrder(i)
    ensures StackRenderOrder(i) >= BaseOrder <==> i >= 0
  {
  }
}
