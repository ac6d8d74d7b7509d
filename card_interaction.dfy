// The per-card hover controller (composables/useCardInteraction.ts): a guarded hovered flag,
// tracked GSAP timelines cleared in place, a reset driven by the store's reset counter, and
// the render-loop decay of the z rotation.
module Interaction {
  import opened Types
  import opened Scene
  import CardGame

  /** Hover-in targets: lift, depth, tilt toward the viewer, and the turn per unit of position. */
  const HoverLiftY := 0.75
  const HoverLiftZ := 0.5
  const HoverTiltX := -0.1
  const HoverTurn := 0.15
  /** Fraction of the z rotation removed by one render-loop step. */
  const RotationDecay := 0.1

  /**
   * A GSAP timeline, as the targets it animates toward; GSAP's interpolation is not modelled.
   * HoverIn animates position y/z to liftY/liftZ and rotation x/y to tiltX/turnY;
   * HoverOut animates position y/z and all rotation axes back to 0.
   */
  datatype Timeline =
    | HoverIn(liftY: real, liftZ: real, tiltX: real, turnY: real)
    | HoverOut

  /** A single GSAP tween handle. */
  datatype Tween = Tween(handle: nat)

  /** `normalizedPosition`: the card's place among its siblings, from -1 (first) to 1 (last). */
  function NormalizedPosition(index: int, totalCards: int): (r: real)
    ensures totalCards <= 1 ==> r == 0.0
    ensures totalCards > 1 && 0 <= index < totalCards ==> -1.0 <= r <= 1.0
  {
    if totalCards <= 1 then 0.0 else (index as real / (totalCards - 1) as real) * 2.0 - 1.0
  }

  /** The first card is at -1, the last at 1, and mirrored cards have opposite positions. */
  lemma NormalizedPositionShape(index: int, totalCards: int)
    requires totalCards > 1
    ensures NormalizedPosition(0, totalCards) == -1.0 && NormalizedPosition(totalCards - 1, totalCards) == 1.0
    ensures NormalizedPosition(totalCards - 1 - index, totalCards) == -NormalizedPosition(index, totalCards)
  {
    var d := (totalCards - 1) as real;
    SplitUnit((totalCards - 1 - index) as real, index as real, d);
    SplitUnit(d, 0.0, d);
  }

  /** Two parts of d, each divided by d, add up to one. */
  lemma SplitUnit(x: real, y: real, d: real)
    requires d != 0.0 && x + y == d
    ensures x / d + y / d == 1.0
  {
    assert x / d + y / d == (x + y) / d;
  }

  /** The normalized position grows strictly with the index. */
  lemma NormalizedPositionIncreasing(i: int, j: int, totalCards: int)
    requires totalCards > 1 && i < j
    ensures NormalizedPosition(i, totalCards) < NormalizedPosition(j, totalCards)
  {
    var d := (totalCards - 1) as real;
    assert i as real / d < j as real / d;
  }

  /** The timeline `onPointerEnter` builds for a card at the given normalized position. */
  function HoverInTimeline(normalizedPosition: real): (tl: Timeline)
    ensures tl.HoverIn? && tl.liftY == HoverLiftY && tl.liftZ == HoverLiftZ && tl.tiltX == HoverTiltX
    ensures tl.turnY > 0.0 <==> normalizedPosition < 0.0
    ensures tl.turnY == 0.0 <==> normalizedPosition == 0.0
    ensures -1.0 <= normalizedPosition <= 1.0 ==> Abs(tl.turnY) <= HoverTurn
  {
    HoverIn(HoverLiftY, HoverLiftZ, HoverTiltX, -normalizedPosition * HoverTurn)
  }

  /**
   * The hover-in turn faces the centre: left of the centre it is positive, right of it
   * negative, zero at the exact centre, and mirrored cards turn by opposite amounts.
   */
  lemma HoverTurnFacesCentre(index: int, totalCards: int)
    requires totalCards > 1 && 0 <= index < totalCards
    ensures var turn := HoverInTimeline(NormalizedPosition(index, totalCards)).turnY;
      && (2 * index < totalCards - 1 ==> turn > 0.0)
      && (2 * index > totalCards - 1 ==> turn < 0.0)
      && (2 * index == totalCards - 1 ==> turn == 0.0)
      && HoverInTimeline(NormalizedPosition(totalCards - 1 - index, totalCards)).turnY == -turn
  {
    NormalizedPositionShape(index, totalCards);
    var d := (totalCards - 1) as real;
    var p := NormalizedPosition(index, totalCards);
    assert p * d == 2.0 * index as real - d by {
      assert index as real / d * d == index as real;
    }
    SignFromProduct(p, d);
  }

  lemma SignFromProduct(p: real, d: real)
    requires d > 0.0
    ensures p * d < 0.0 ==> p < 0.0
    ensures p * d > 0.0 ==> p > 0.0
    ensures p * d == 0.0 ==> p == 0.0
  {
  }

  /** One render-loop step on the z rotation: `z += (0 - z) * 0.1`. */
  function Decay(z: real): (r: real)
    ensures Abs(r) <= Abs(z)
    ensures z > 0.0 ==> 0.0 < r < z
    ensures z < 0.0 ==> z < r < 0.0
    ensures z == 0.0 ==> r == 0.0
  {
    z + (0.0 - z) * RotationDecay
  }

  /** The z rotation after k render-loop steps. */
  function DecaySteps(z: real, k: nat): real {
    if k == 0 then z else Decay(DecaySteps(z, k - 1))
  }

  /** However many steps run, the rotation keeps its sign and its magnitude never grows. */
  lemma {:induction false} DecayStepsShrink(z: real, k: nat, j: nat)
    requires j <= k
    ensures Abs(DecaySteps(z, k)) <= Abs(DecaySteps(z, j))
    ensures z > 0.0 ==> DecaySteps(z, k) > 0.0
    ensures z < 0.0 ==> DecaySteps(z, k) < 0.0
    ensures z == 0.0 ==> DecaySteps(z, k) == 0.0
  {
    if k > 0 {
      if j < k {
        DecayStepsShrink(z, k - 1, j);
      } else {
        DecayStepsShrink(z, k - 1, k - 1);
      }
    }
  }

  class CardInteraction {
    const index: int
    const totalCards: int
    const normalizedPosition: real
    const store: CardGame.Store
    /** The hovered mesh, set on the first pointer enter. */
    var cardRef: Object3D?
    var hoverY: real
    var isHovered: bool
    var targetHoverY: real
    var hoverZ: real
    var targetHoverZ: real
    var activeAnimations: seq<Tween>
    var activeTimelines: seq<Timeline>
    /** The tweens and timelines `kill()` was called on, oldest first. */
    var killedAnimations: seq<Tween>
    var killedTimelines: seq<Timeline>
    /** The reset counter value the watch last saw. */
    var seenResetCounter: nat

    constructor (store: CardGame.Store, index: int := 0, totalCards: int := 1)
      ensures this.store == store && this.index == index && this.totalCards == totalCards
      ensures normalizedPosition == NormalizedPosition(index, totalCards)
      ensures cardRef == null && !isHovered
      ensures hoverY == 0.0 && targetHoverY == 0.0 && hoverZ == 0.0 && targetHoverZ == 0.0
      ensures activeAnimations == [] && activeTimelines == []
      ensures killedAnimations == [] && killedTimelines == []
      ensures seenResetCounter == store.resetCounter
    {
      this.store := store;
      this.index := index;
      this.totalCards := totalCards;
      normalizedPosition := NormalizedPosition(index, totalCards);
      cardRef := null;
      hoverY, isHovered, targetHoverY := 0.0, false, 0.0;
      hoverZ, targetHoverZ := 0.0, 0.0;
      activeAnimations, activeTimelines := [], [];
      killedAnimations, killedTimelines := [], [];
      seenResetCounter := store.resetCounter;
    }

    /** `trackAnimation`. */
    method TrackAnimation(animation: Tween)
      modifies this
      ensures activeAnimations == old(activeAnimations) + [animation]
      ensures activeTimelines == old(activeTimelines) && cardRef == old(cardRef)
      ensures killedAnimations == old(killedAnimations) && killedTimelines == old(killedTimelines)
      ensures isHovered == old(isHovered) && hoverY == old(hoverY) && hoverZ == old(hoverZ)
      ensures targetHoverY == old(targetHoverY) && targetHoverZ == old(targetHoverZ)
      ensures seenResetCounter == old(seenResetCounter)
    {
      activeAnimations := activeAnimations + [animation];
    }

    /** `trackTimeline`. */
    method TrackTimeline(timeline: Timeline)
      modifies this
      ensures activeTimelines == old(activeTimelines) + [timeline]
      ensures activeAnimations == old(activeAnimations) && cardRef == old(cardRef)
      ensures killedAnimations == old(killedAnimations) && killedTimelines == old(killedTimelines)
      ensures isHovered == old(isHovered) && hoverY == old(hoverY) && hoverZ == old(hoverZ)
      ensures targetHoverY == old(targetHoverY) && targetHoverZ == old(targetHoverZ)
      ensures seenResetCounter == old(seenResetCounter)
    {
      activeTimelines := activeTimelines + [timeline];
    }

    /**
     * `killAllAnimations`: kills every tracked tween and timeline, empties both tracked lists
     * and zeroes the mesh's z rotation.
     */
    method KillAllAnimations()
      modifies this, cardRef
      ensures activeAnimations == [] && activeTimelines == []
      ensures killedAnimations == old(killedAnimations) + old(activeAnimations)
      ensures killedTimelines == old(killedTimelines) + old(activeTimelines)
      ensures cardRef == old(cardRef)
      ensures cardRef != null ==>
        cardRef.rotation == old(cardRef.rotation).(z := 0.0) && cardRef.position == old(cardRef.position)
        && cardRef.scale == old(cardRef.scale)
      ensures isHovered == old(isHovered) && hoverY == old(hoverY) && hoverZ == old(hoverZ)
      ensures targetHoverY == old(targetHoverY) && targetHoverZ == old(targetHoverZ)
      ensures seenResetCounter == old(seenResetCounter)
    {
      killedAnimations := killedAnimations + activeAnimations;
      killedTimelines := killedTimelines + activeTimelines;
      activeAnimations := [];
      activeTimelines := [];
      var card := cardRef;
      if card != null {
        card.rotation := card.rotation.(z := 0.0);
      }
    }

    /**
     * `onPointerEnter`: ignored while hovered; otherwise marks the card hovered, remembers the
     * mesh, kills what was tracked and tracks exactly the new hover-in timeline.
     */
    method OnPointerEnter(card: Object3D)
      modifies this, card
      ensures old(isHovered) ==> unchanged(this) && unchanged(card)
      ensures !old(isHovered) ==>
        && isHovered && cardRef == card
        && activeAnimations == [] && activeTimelines == [HoverInTimeline(normalizedPosition)]
        && killedAnimations == old(killedAnimations) + old(activeAnimations)
        && killedTimelines == old(killedTimelines) + old(activeTimelines)
        && card.rotation == old(card.rotation).(z := 0.0)
        && card.position == old(card.position) && card.scale == old(card.scale)
        && hoverY == old(hoverY) && hoverZ == old(hoverZ)
        && targetHoverY == old(targetHoverY) && targetHoverZ == old(targetHoverZ)
        && seenResetCounter == old(seenResetCounter)
    {
      if isHovered {
        return;
      }
      isHovered := true;
      cardRef := card;
      KillAllAnimations();
      TrackTimeline(HoverInTimeline(normalizedPosition));
    }

    /**
     * `onPointerLeave`: ignored unless hovered; otherwise clears the flag, kills what was
     * tracked and, when a mesh is known, tracks exactly the hover-out timeline.
     */
    method OnPointerLeave()
      modifies this, cardRef
      ensures cardRef == old(cardRef)
      ensures !old(isHovered) ==> unchanged(this) && (cardRef != null ==> unchanged(old(cardRef)))
      ensures old(isHovered) ==>
        && !isHovered
        && activeAnimations == []
        && activeTimelines == (if cardRef != null then [HoverOut] else [])
        && killedAnimations == old(killedAnimations) + old(activeAnimations)
        && killedTimelines == old(killedTimelines) + old(activeTimelines)
        && (cardRef != null ==>
             cardRef.rotation == old(cardRef.rotation).(z := 0.0) && cardRef.position == old(cardRef.position)
             && cardRef.scale == old(cardRef.scale))
        && hoverY == old(hoverY) && hoverZ == old(hoverZ)
        && targetHoverY == old(targetHoverY) && targetHoverZ == old(targetHoverZ)
        && seenResetCounter == old(seenResetCounter)
    {
      if !isHovered {
        return;
      }
      isHovered := false;
      KillAllAnimations();
      if cardRef == null {
        return;
      }
      TrackTimeline(HoverOut);
    }

    /**
     * `resetInteractionState`: not hovered, every hover value zero, nothing tracked, and the
     * mesh, when known, back at y = z = 0 with no rotation.
     */
    method ResetInteractionState()
      modifies this, cardRef
      ensures cardRef == old(cardRef)
      ensures !isHovered
      ensures hoverY == 0.0 && hoverZ == 0.0 && targetHoverY == 0.0 && targetHoverZ == 0.0
      ensures activeAnimations == [] && activeTimelines == []
      ensures killedAnimations == old(killedAnimations) + old(activeAnimations)
      ensures killedTimelines == old(killedTimelines) + old(activeTimelines)
      ensures cardRef != null ==>
        && cardRef.position == old(cardRef.position).(y := 0.0, z := 0.0)
        && cardRef.rotation == Origin && cardRef.scale == old(cardRef.scale)
      ensures seenResetCounter == old(seenResetCounter)
    {
      isHovered := false;
      targetHoverY := 0.0;
      hoverY := 0.0;
      targetHoverZ := 0.0;
      hoverZ := 0.0;
      KillAllAnimations();
      var card := cardRef;
      if card != null {
        card.position := card.position.(y := 0.0, z := 0.0);
        card.rotation := Origin;
      }
    }

    /** The watch on the store's reset counter: a changed counter resets the interaction state. */
    method WatchResetCounter()
      modifies this, cardRef
      ensures cardRef == old(cardRef) && seenResetCounter == store.resetCounter
      ensures old(seenResetCounter) == store.resetCounter ==>
        unchanged(this`isHovered, this`hoverY, this`hoverZ, this`targetHoverY, this`targetHoverZ)
        && activeAnimations == old(activeAnimations) && activeTimelines == old(activeTimelines)
        && killedAnimations == old(killedAnimations) && killedTimelines == old(killedTimelines)
        && (cardRef != null ==> unchanged(old(cardRef)))
      ensures old(seenResetCounter) != store.resetCounter ==>
        && !isHovered
        && hoverY == 0.0 && hoverZ == 0.0 && targetHoverY == 0.0 && targetHoverZ == 0.0
        && activeAnimations == [] && activeTimelines == []
        && killedAnimations == old(killedAnimations) + old(activeAnimations)
        && killedTimelines == old(killedTimelines) + old(activeTimelines)
        && (cardRef != null ==>
             cardRef.position == old(cardRef.position).(y := 0.0, z := 0.0) && cardRef.rotation == Origin
             && cardRef.scale == old(cardRef.scale))
    {
      if store.resetCounter != seenResetCounter {
        ResetInteractionState();
      }
      seenResetCounter := store.resetCounter;
    }

    /**
     * One render-loop callback: with a mesh, not hovered and something left to settle, the z
     * rotation loses a tenth of itself; nothing else changes.
     */
    method RenderLoopStep()
      modifies cardRef
      ensures cardRef != null ==> cardRef.position == old(cardRef.position) && cardRef.scale == old(cardRef.scale)
      ensures cardRef != null ==>
        cardRef.rotation ==
          if !isHovered && (hoverY != 0.0 || hoverZ != 0.0 || old(cardRef.rotation.z) != 0.0)
          then old(cardRef.rotation).(z := Decay(old(cardRef.rotation.z)))
          else old(cardRef.rotation)
    {
      var card := cardRef;
      if card == null || isHovered {
        return;
      }
      if hoverY != 0.0 || hoverZ != 0.0 || card.rotation.z != 0.0 {
        card.rotation := card.rotation.(z := Decay(card.rotation.z));
      }
    }
  }
}
