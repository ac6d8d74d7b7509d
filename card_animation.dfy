// The per-card play animation (composables/useCardAnimation.ts): idle -> playing -> completed,
// a click debounce, a frame step with two easing curves, an exact snap to the target at the
// end, and the recovery of a stored animation after a remount.
module Animation {
  import opened Types
  import opened Scene
  import CardGame

  /** Minimum time between two accepted clicks, in milliseconds. */
  const ClickDebounceTime := 500
  /** Duration of the play animation, in milliseconds (recorded in the store and used per frame). */
  const PlayDuration := 800
  /** Scale a card shrinks to on its way to the wall. */
  const WallScale := 0.7
  /** Stored progress above which a resumed animation is treated as finished. */
  const NearlyCompleteThreshold := 0.95
  /** Extra depth per card already on the wall, against z-fighting. */
  const WallZStep := 0.01

  /** A handle returned by requestAnimationFrame (always non-zero). */
  type FrameId = n: nat | n > 0 witness 1

  function Cube(x: real): real { x * x * x }

  /** Cubing is monotone, and strictly so, on the non-negative reals. */
  lemma CubeMonotone(a: real, b: real)
    ensures 0.0 <= a <= b ==> 0.0 <= Cube(a) <= Cube(b)
    ensures 0.0 <= a < b ==> Cube(a) < Cube(b)
  {
    if !(0.0 <= a <= b) {
      return;
    }
    assert a * a <= b * b by {
      assert a * a <= a * b;
      assert a * b <= b * b;
    }
    assert a * a * a <= b * b * a;
    assert b * b * a <= b * b * b;
    if a < b {
      assert b * b * a < b * b * b;
    }
  }

  /** `lerp`: the point a fraction t of the way from a to b. */
  function Lerp(a: real, b: real, t: real): (r: real)
    ensures t == 0.0 ==> r == a
    ensures t == 1.0 ==> r == b
    ensures 0.0 <= t <= 1.0 && a <= b ==> a <= r <= b
    ensures 0.0 <= t <= 1.0 && b <= a ==> b <= r <= a
  {
    var d := b - a;
    ScaledBetween(d, t);
    a + d * t
  }

  /** A fraction t in [0, 1] of d lies between 0 and d. */
  lemma ScaledBetween(d: real, t: real)
    ensures t == 0.0 ==> d * t == 0.0
    ensures t == 1.0 ==> d * t == d
    ensures 0.0 <= t <= 1.0 && d >= 0.0 ==> 0.0 <= d * t <= d
    ensures 0.0 <= t <= 1.0 && d <= 0.0 ==> d <= d * t <= 0.0
  {
    if !(0.0 <= t <= 1.0) {
    } else if d >= 0.0 {
      assert d * t <= d * 1.0;
    } else {
      assert (-d) * t <= (-d) * 1.0;
    }
  }

  /**
   * `easeInOut`: cubic ease-in/ease-out. It maps [0, 1] into [0, 1], keeping the lower half
   * below 1/2 and the upper half at or above it, so the depth never leaves its segment.
   */
  function EaseInOut(t: real): (r: real)
    ensures 0.0 <= t <= 1.0 ==> 0.0 <= r <= 1.0
    ensures 0.0 <= t < 0.5 ==> r < 0.5
    ensures 0.5 <= t <= 1.0 ==> r >= 0.5
  {
    if t < 0.5 then
      CubeMonotone(t, 0.5);
      4.0 * Cube(t)
    else
      CubeMonotone(-2.0 * t + 2.0, 1.0);
      1.0 - Cube(-2.0 * t + 2.0) / 2.0
  }

  lemma EaseInOutEndpoints()
    ensures EaseInOut(0.0) == 0.0 && EaseInOut(1.0) == 1.0 && EaseInOut(0.5) == 0.5
  {
  }

  /** easeInOut is non-decreasing on [0, 1]. */
  lemma EaseInOutMonotone(s: real, t: real)
    requires 0.0 <= s <= t <= 1.0
    ensures EaseInOut(s) <= EaseInOut(t)
  {
    if t < 0.5 {
      CubeMonotone(s, t);
    } else if s >= 0.5 {
      CubeMonotone(-2.0 * t + 2.0, -2.0 * s + 2.0);
    }
  }

  /** easeInOut is point-symmetric about (1/2, 1/2). */
  lemma EaseInOutSymmetric(t: real)
    ensures EaseInOut(1.0 - t) == 1.0 - EaseInOut(t)
  {
    if t < 0.5 {
      assert -2.0 * (1.0 - t) + 2.0 == 2.0 * t;
      CubeDouble(t);
    } else if t > 0.5 {
      assert -2.0 * t + 2.0 == 2.0 * (1.0 - t);
      CubeDouble(1.0 - t);
    }
  }

  /**
   * `easeOutBack`: ends with a slight overshoot (constant 1.70158). Before the end it lies
   * above 1 exactly when 2.70158 (t - 1) + 1.70158 > 0, that is from t = 1 - 1.70158 / 2.70158 on.
   */
  function EaseOutBack(t: real): (r: real)
    ensures t != 1.0 ==> (r > 1.0 <==> 2.70158 * (t - 1.0) + 1.70158 > 0.0)
    ensures t != 1.0 ==> (r == 1.0 <==> 2.70158 * (t - 1.0) + 1.70158 == 0.0)
  {
    var c1 := 1.70158;
    var c3 := c1 + 1.0;
    CubeFactor(t - 1.0, c3, c1);
    PositiveTimes((t - 1.0) * (t - 1.0), c3 * (t - 1.0) + c1);
    1.0 + c3 * Cube(t - 1.0) + c1 * (t - 1.0) * (t - 1.0)
  }

  /** Doubling the argument multiplies the cube by eight. */
  lemma CubeDouble(x: real)
    ensures Cube(2.0 * x) == 8.0 * Cube(x)
  {
  }

  /** a u^3 + b u^2 = u^2 (a u + b), with u^2 positive away from 0. */
  lemma CubeFactor(u: real, a: real, b: real)
    ensures a * Cube(u) + b * u * u == (u * u) * (a * u + b)
    ensures u != 0.0 ==> u * u > 0.0
  {
  }

  /** A positive factor keeps the sign of the other one. */
  lemma PositiveTimes(s: real, v: real)
    ensures s > 0.0 ==> (s * v > 0.0 <==> v > 0.0) && (s * v == 0.0 <==> v == 0.0)
  {
    if s > 0.0 && v < 0.0 {
      assert s * (-v) > 0.0;
    }
  }

  lemma EaseOutBackEndpoints()
    ensures EaseOutBack(0.0) == 0.0 && EaseOutBack(1.0) == 1.0
  {
    assert Cube(-1.0) == -1.0 && Cube(0.0) == 0.0;
    assert EaseOutBack(0.0) == 1.0 + 2.70158 * -1.0 + 1.70158 * 1.0;
  }

  /** easeOutBack overshoots its end value inside (0, 1), unlike easeInOut. */
  lemma EaseOutBackOvershoots()
    ensures EaseOutBack(0.8) > 1.0
    ensures forall t :: 0.0 <= t <= 1.0 ==> EaseInOut(t) <= 1.0
  {
  }

  /** `Math.min(elapsed / 800, 1)`: the frame progress, capped at 1 (not floored at 0). */
  function FrameProgress(elapsed: real): (p: real)
    ensures p <= 1.0
    ensures elapsed >= 0.0 ==> p >= 0.0
    ensures p == 1.0 <==> elapsed >= PlayDuration as real
  {
    var ratio := elapsed / PlayDuration as real;
    if ratio < 1.0 then ratio else 1.0
  }

  /** `Math.min(progress * 2, 1)`: the rotation straightens twice as fast. */
  function RotationProgress(p: real): (q: real)
    ensures q <= 1.0
    ensures 0.0 <= p ==> 0.0 <= q
    ensures p >= 0.5 ==> q == 1.0
  {
    if p * 2.0 < 1.0 then p * 2.0 else 1.0
  }

  /** Position on a frame of progress p: overshooting ease on x and y, monotone ease on z. */
  function FramePosition(start: Vec3, target: Vec3, p: real): Vec3 {
    Vec3(Lerp(start.x, target.x, EaseOutBack(p)),
         Lerp(start.y, target.y, EaseOutBack(p)),
         Lerp(start.z, target.z, EaseInOut(p)))
  }

  /** At zero progress the interpolated position is the start. */
  lemma FramePositionStarts(start: Vec3, target: Vec3)
    ensures FramePosition(start, target, 0.0) == start
  {
    EaseOutBackEndpoints();
    EaseInOutEndpoints();
  }

  /** At full progress the interpolated position is the target. */
  lemma FramePositionEnds(start: Vec3, target: Vec3)
    ensures FramePosition(start, target, 1.0) == target
  {
    EaseOutBackEndpoints();
    EaseInOutEndpoints();
  }

  /** The depth never leaves the segment between start and target, so it never passes behind placed cards. */
  lemma FrameDepthBetween(start: Vec3, target: Vec3, p: real)
    requires 0.0 <= p <= 1.0
    ensures start.z <= target.z ==> start.z <= FramePosition(start, target, p).z <= target.z
    ensures target.z <= start.z ==> target.z <= FramePosition(start, target, p).z <= start.z
  {
  }

  /** Target on the wall: slot plus offset, pushed forward by the cards already on the wall. */
  function WallTarget(wallPosition: Vec3, wallOffset: Vec3, playedCount: nat): (t: Vec3)
    ensures t.x - wallOffset.x == wallPosition.x && t.y - wallOffset.y == wallPosition.y
    ensures t.z - wallPosition.z - wallOffset.z == playedCount as real * WallZStep
  {
    Vec3(wallPosition.x + wallOffset.x,
         wallPosition.y + wallOffset.y,
         wallPosition.z + wallOffset.z + playedCount as real * WallZStep)
  }

  /**
   * Whether `Math.min(elapsed / duration, 1) > 0.95` holds in IEEE doubles: a zero duration
   * gives Infinity (true) for positive elapsed time and NaN or -Infinity (false) otherwise.
   */
  function NearlyComplete(elapsed: int, duration: int): (r: bool)
    ensures duration > 0 ==> (r <==> elapsed as real > NearlyCompleteThreshold * duration as real)
    ensures duration == 0 ==> (r <==> elapsed > 0)
  {
    if duration == 0 then elapsed > 0
    else
      var ratio := elapsed as real / duration as real;
      (if ratio < 1.0 then ratio else 1.0) > NearlyCompleteThreshold
  }

  /** The phase moves of the play path: the click and the frame loop only ever move forward. */
  predicate ForwardStep(from: Phase, to: Phase) {
    from == to || (from == Idle && to == Playing) || (from == Playing && to == Completed)
  }

  /** Along a run of play-path steps, a completed controller stays completed. */
  lemma {:induction false} CompletedTerminal(trace: seq<Phase>, i: nat, k: nat)
    requires forall j :: 0 <= j < |trace| - 1 ==> ForwardStep(trace[j], trace[j + 1])
    requires i <= k < |trace| && trace[i] == Completed
    ensures trace[k] == Completed
  {
    if k > i {
      CompletedTerminal(trace, i, k - 1);
      assert ForwardStep(trace[k - 1], trace[k]);
    }
  }

  /** The phase moves that the controller's operations make, the stored-animation recovery included. */
  predicate PhaseStep(from: Phase, to: Phase) {
    ForwardStep(from, to)
    || (from == Idle && to == Completed)     // recovery of a nearly complete stored animation
    || (from == Completed && to == Playing)  // recovery when the store still says playing
  }

  /** Along any run of controller steps, a controller that has left idle never returns to it. */
  lemma {:induction false} NeverBackToIdle(trace: seq<Phase>, k: nat)
    requires forall i :: 0 <= i < |trace| - 1 ==> PhaseStep(trace[i], trace[i + 1])
    requires 0 < |trace| && trace[0] != Idle
    requires k < |trace|
    ensures trace[k] != Idle
  {
    if k > 0 {
      NeverBackToIdle(trace, k - 1);
      assert PhaseStep(trace[k - 1], trace[k]);
    }
  }

  /**
   * One frame of `animateCard` on the group at progress `p`: x and y follow easeOutBack,
   * z follows easeInOut, rotation x/y straighten twice as fast, and the scale shrinks
   * towards the wall scale along easeOutBack. Rotation z is kept.
   */
  method MoveAlongPath(g: Object3D, start: Vec3, target: Vec3, p: real)
    modifies g
    ensures g.position == FramePosition(start, target, p)
    ensures g.rotation == Vec3(Lerp(old(g.rotation.x), 0.0, RotationProgress(p)),
                               Lerp(old(g.rotation.y), 0.0, RotationProgress(p)),
                               old(g.rotation.z))
    ensures var s := Lerp(1.0, WallScale, EaseOutBack(p)); g.scale == Vec3(s, s, s)
  {
    var eased := EaseOutBack(p);
    var depthEased := EaseInOut(p);
    g.position := Vec3(Lerp(start.x, target.x, eased),
                       Lerp(start.y, target.y, eased),
                       Lerp(start.z, target.z, depthEased));
    var rp := RotationProgress(p);
    g.rotation := Vec3(Lerp(g.rotation.x, 0.0, rp), Lerp(g.rotation.y, 0.0, rp), g.rotation.z);
    var s := Lerp(1.0, WallScale, eased);
    g.scale := Vec3(s, s, s);
  }

  /** The last frame of `animateCard` on the group: exactly on the target, upright in x/y, at wall scale. */
  method SnapToTarget(g: Object3D, target: Vec3)
    modifies g
    ensures g.position == target
    ensures g.rotation == Vec3(0.0, 0.0, old(g.rotation.z))
    ensures g.scale == Vec3(WallScale, WallScale, WallScale)
  {
    g.position := target;
    g.rotation := Vec3(0.0, 0.0, g.rotation.z);
    g.scale := Vec3(WallScale, WallScale, WallScale);
  }

  class CardAnimation {
    const cardId: int
    const store: CardGame.Store
    /** `groupRef.value`: the rendered group, when mounted. */
    var group: Object3D?
    var animationState: Phase
    var animationProgress: real
    /** performance.now() at the start, in milliseconds. */
    var animationStartTime: real
    var animationId: Option<FrameId>
    var startPosition: Vec3
    var targetPosition: Vec3
    /** Date.now() of the last accepted click, in milliseconds. */
    var lastClickTime: int
    /** The ids passed to `emitPlay`, oldest first. */
    var emitted: seq<int>
    /** The handles passed to cancelAnimationFrame, oldest first. */
    var cancelled: seq<FrameId>

    constructor (group: Object3D?, cardId: int, store: CardGame.Store)
      ensures this.group == group && this.cardId == cardId && this.store == store
      ensures animationState == Idle && animationProgress == 0.0 && animationStartTime == 0.0
      ensures animationId == None && startPosition == Origin && targetPosition == Origin
      ensures lastClickTime == 0 && emitted == [] && cancelled == []
    {
      this.group := group;
      this.cardId := cardId;
      this.store := store;
      animationState := Idle;
      animationProgress := 0.0;
      animationStartTime := 0.0;
      animationId := None;
      startPosition := Origin;
      targetPosition := Origin;
      lastClickTime := 0;
      emitted := [];
      cancelled := [];
    }

    /** `isAnimationPlaying`: true once the card has left idle, completed included. */
    predicate IsAnimationPlaying()
      reads this
      ensures IsAnimationPlaying() <==> animationState == Playing || animationState == Completed
    {
      animationState != Idle
    }

    /** `isClickable` at time `now`: idle, and more than 500 ms after the last accepted click. */
    predicate IsClickable(now: int)
      reads this
      ensures IsClickable(now) ==> !IsAnimationPlaying() && now >= lastClickTime + ClickDebounceTime + 1
      ensures animationState == Idle && now > lastClickTime + ClickDebounceTime ==> IsClickable(now)
    {
      animationState == Idle && now - lastClickTime > ClickDebounceTime
    }

    /** Whether `startAnimation` at time `now` gets past its two guards. */
    predicate Accepts(now: int)
      reads this
    {
      !IsAnimationPlaying() && !(now - lastClickTime < ClickDebounceTime)
    }

    /**
     * The two debounce tests differ at the boundary: a click exactly 500 ms after the last
     * accepted one is accepted by `startAnimation` although `isClickable` is false then.
     */
    lemma DebounceBoundary(now: int)
      ensures IsClickable(now) ==> Accepts(now)
      ensures animationState == Idle && now - lastClickTime == ClickDebounceTime ==>
                Accepts(now) && !IsClickable(now)
    {
    }

    /**
     * `startAnimation`: ignored unless idle and outside the debounce window; otherwise records
     * the click, the start and target transforms, starts playing, registers the animation in
     * the store, schedules the first frame and emits play once.
     * `now` is Date.now(), `perfNow` is performance.now(), `frame` is requestAnimationFrame's handle.
     */
    method StartAnimation(now: int, perfNow: real, frame: FrameId, wallPosition: Vec3, wallOffset: Vec3)
      modifies this, store
      ensures ForwardStep(old(animationState), animationState)
      ensures group == old(group)
      ensures !old(Accepts(now)) ==> unchanged(this) && unchanged(store)
      ensures old(Accepts(now)) ==>
        && lastClickTime == now
        && animationState == Playing && animationProgress == 0.0 && animationStartTime == perfNow
        && startPosition == (if group != null then group.position else Origin)
        && targetPosition == WallTarget(wallPosition, wallOffset,
                                        |CardGame.Played(old(store.cards), old(store.playedCardIds))|)
        && store.cardAnimations == old(store.cardAnimations)[cardId :=
             CardAnimationState(cardId, startPosition, targetPosition, now, PlayDuration, Playing)]
        && store.cards == old(store.cards) && store.playedCardIds == old(store.playedCardIds)
        && store.resetCounter == old(store.resetCounter)
        && animationId == Some(frame)
        && cancelled == old(cancelled) + (if old(animationId).Some? then [old(animationId).value] else [])
        && emitted == old(emitted) + [cardId]
    {
      if IsAnimationPlaying() {
        return;
      }
      if now - lastClickTime < ClickDebounceTime {
        return;
      }
      // The source tests for idle a second time here; after the first guard it always passes.
      var playedCount := |CardGame.Played(store.cards, store.playedCardIds)|;
      Launch(now, perfNow, frame, WallTarget(wallPosition, wallOffset, playedCount));
    }

    /** The accepted part of `startAnimation`, heading for `target`. */
    method Launch(now: int, perfNow: real, frame: FrameId, target: Vec3)
      modifies this, store
      ensures group == old(group)
      ensures lastClickTime == now
      ensures animationState == Playing && animationProgress == 0.0 && animationStartTime == perfNow
      ensures startPosition == (if group != null then group.position else Origin)
      ensures targetPosition == target
      ensures store.cardAnimations == old(store.cardAnimations)[cardId :=
                CardAnimationState(cardId, startPosition, targetPosition, now, PlayDuration, Playing)]
      ensures store.cards == old(store.cards) && store.playedCardIds == old(store.playedCardIds)
      ensures store.resetCounter == old(store.resetCounter)
      ensures animationId == Some(frame)
      ensures cancelled == old(cancelled) + (if old(animationId).Some? then [old(animationId).value] else [])
      ensures emitted == old(emitted) + [cardId]
    {
      lastClickTime := now;
      startPosition := if group != null then group.position else Origin;
      targetPosition := target;
      animationState := Playing;
      animationProgress := 0.0;
      animationStartTime := perfNow;
      store.StartCardAnimation(now, cardId, startPosition, targetPosition, PlayDuration);
      if animationId.Some? {
        cancelled := cancelled + [animationId.value];
      }
      animationId := Some(frame);
      emitted := emitted + [cardId];
    }

    /**
     * `animateCard`: one frame at `timestamp` (performance.now() clock). Does nothing unless
     * playing. Below full progress it moves the group along the eased path, straightens and
     * shrinks it, and schedules `nextFrame`; at full progress it snaps the group exactly onto
     * the target, resets rotation x/y and the scale, completes, and completes the store record.
     */
    method AnimateCard(timestamp: real, nextFrame: FrameId)
      modifies this, group, store
      ensures ForwardStep(old(animationState), animationState)
      ensures group == old(group)
      ensures old(animationState) != Playing ==>
        unchanged(this) && unchanged(store) && (group != null ==> unchanged(old(group)))
      ensures old(animationState) == Playing ==>
        && animationProgress == FrameProgress(timestamp - animationStartTime)
        && animationProgress <= 1.0
        && startPosition == old(startPosition) && targetPosition == old(targetPosition)
        && animationStartTime == old(animationStartTime) && lastClickTime == old(lastClickTime)
        && emitted == old(emitted) && cancelled == old(cancelled)
        && store.cards == old(store.cards) && store.playedCardIds == old(store.playedCardIds)
        && store.resetCounter == old(store.resetCounter)
      ensures old(animationState) == Playing && animationProgress < 1.0 ==>
        && animationState == Playing && animationId == Some(nextFrame)
        && store.cardAnimations == old(store.cardAnimations)
        && (group != null ==>
             && group.position == FramePosition(startPosition, targetPosition, animationProgress)
             && group.rotation == Vec3(Lerp(old(group.rotation.x), 0.0, RotationProgress(animationProgress)),
                                       Lerp(old(group.rotation.y), 0.0, RotationProgress(animationProgress)),
                                       old(group.rotation.z))
             && var s := Lerp(1.0, WallScale, EaseOutBack(animationProgress)); group.scale == Vec3(s, s, s))
      ensures old(animationState) == Playing && animationProgress == 1.0 ==>
        && animationState == Completed && animationId == old(animationId)
        && (cardId in old(store.cardAnimations) ==>
             store.cardAnimations == old(store.cardAnimations)[cardId :=
               old(store.cardAnimations)[cardId].(animationState := Completed)])
        && (cardId !in old(store.cardAnimations) ==> store.cardAnimations == old(store.cardAnimations))
        && (group != null ==>
             && group.position == targetPosition
             && group.rotation == Vec3(0.0, 0.0, old(group.rotation.z))
             && group.scale == Vec3(WallScale, WallScale, WallScale))
    {
      if animationState != Playing {
        return;
      }
      var elapsed := timestamp - animationStartTime;
      animationProgress := FrameProgress(elapsed);
      var g := group;
      if g != null {
        MoveAlongPath(g, startPosition, targetPosition, animationProgress);
      }
      if animationProgress < 1.0 {
        animationId := Some(nextFrame);
      } else {
        animationState := Completed;
        if g != null {
          SnapToTarget(g, targetPosition);
        }
        store.CompleteCardAnimation(cardId);
      }
    }

    /**
     * `checkStoredAnimation` at Date.now() `now`, as written: only a stored record that is
     * playing has an effect. With a group and a nearly complete record it jumps to the stored
     * target and completes; otherwise it keeps playing and schedules `frame` if no frame is
     * pending. The resumed loop keeps this controller's own start, target and start time.
     */
    method CheckStoredAnimation(now: int, frame: FrameId)
      modifies this, group, store
      ensures PhaseStep(old(animationState), animationState)
      ensures group == old(group)
      ensures old(ResumeNeeded()) == false ==>
        unchanged(this) && unchanged(store) && (group != null ==> unchanged(old(group)))
      ensures old(ResumeNeeded()) ==> ResumedFromStore(old(store.cardAnimations[cardId]), now, frame)
      ensures old(ResumeNeeded()) && !old(SnapsOnResume(now)) ==>
        && startPosition == old(startPosition) && targetPosition == old(targetPosition)
        && animationStartTime == old(animationStartTime)
    {
      var stored := store.GetCardAnimationState(cardId);
      if stored.Some? && stored.value.animationState == Playing {
        animationState := Playing;
        var g := group;
        if g != null {
          var elapsed := now - stored.value.startTime;
          if NearlyComplete(elapsed, stored.value.animationDuration) {
            g.position := stored.value.targetPosition;
            g.rotation := Origin;
            animationState := Completed;
            store.CompleteCardAnimation(cardId);
          } else if animationId == None {
            animationId := Some(frame);
          }
        } else if animationId == None {
          animationId := Some(frame);
        }
      }
    }

    /**
     * The recovery as evidently intended: like `CheckStoredAnimation`, but when it resumes the
     * frame loop it also takes the start and target positions from the stored record and
     * backdates the start time by the elapsed time, with `perfNow` the performance.now() reading.
     */
    method CheckStoredAnimationRestoring(now: int, perfNow: real, frame: FrameId)
      modifies this, group, store
      ensures PhaseStep(old(animationState), animationState)
      ensures group == old(group)
      ensures old(ResumeNeeded()) == false ==>
        unchanged(this) && unchanged(store) && (group != null ==> unchanged(old(group)))
      ensures old(ResumeNeeded()) ==> ResumedFromStore(old(store.cardAnimations[cardId]), now, frame)
      ensures old(ResumeNeeded()) && !old(SnapsOnResume(now)) ==>
        var rec := old(store.cardAnimations[cardId]);
        && startPosition == rec.startPosition && targetPosition == rec.targetPosition
        && animationStartTime == perfNow - (now - rec.startTime) as real
    {
      var stored := store.GetCardAnimationState(cardId);
      if stored.Some? && stored.value.animationState == Playing {
        animationState := Playing;
        var g := group;
        var elapsed := now - stored.value.startTime;
        if g != null && NearlyComplete(elapsed, stored.value.animationDuration) {
          g.position := stored.value.targetPosition;
          g.rotation := Origin;
          animationState := Completed;
          store.CompleteCardAnimation(cardId);
        } else {
          startPosition := stored.value.startPosition;
          targetPosition := stored.value.targetPosition;
          animationStartTime := perfNow - elapsed as real;
          if animationId == None {
            animationId := Some(frame);
          }
        }
      }
    }

    /** The store holds a playing record for this card. */
    predicate ResumeNeeded()
      reads this, store
    {
      cardId in store.cardAnimations && store.cardAnimations[cardId].animationState == Playing
    }

    /** On resume at `now`, the group is mounted and the stored animation is nearly complete. */
    predicate SnapsOnResume(now: int)
      reads this, store
      requires ResumeNeeded()
    {
      var rec := store.cardAnimations[cardId];
      group != null && NearlyComplete(now - rec.startTime, rec.animationDuration)
    }

    /**
     * The effect shared by both recoveries of record `rec`: either the jump to the stored
     * target with completion, or playing on with a frame scheduled only if none was pending.
     */
    twostate predicate ResumedFromStore(rec: CardAnimationState, now: int, frame: FrameId)
      reads this, group, store
    {
      && group == old(group)
      && lastClickTime == old(lastClickTime) && animationProgress == old(animationProgress)
      && emitted == old(emitted) && cancelled == old(cancelled)
      && store.cards == old(store.cards) && store.playedCardIds == old(store.playedCardIds)
      && store.resetCounter == old(store.resetCounter)
      && if group != null && NearlyComplete(now - rec.startTime, rec.animationDuration) then
           && animationState == Completed && animationId == old(animationId)
           && startPosition == old(startPosition) && targetPosition == old(targetPosition)
           && animationStartTime == old(animationStartTime)
           && group.position == rec.targetPosition && group.rotation == Origin
           && group.scale == old(group.scale)
           && store.cardAnimations == old(store.cardAnimations)[cardId := rec.(animationState := Completed)]
         else
           && animationState == Playing
           && animationId == (if old(animationId) == None then Some(frame) else old(animationId))
           && store.cardAnimations == old(store.cardAnimations)
           && (group != null ==>
                group.position == old(group.position) && group.rotation == old(group.rotation)
                && group.scale == old(group.scale))
    }

    /** `cleanup`: cancels a pending frame and forgets it; with none pending it changes nothing. */
    method Cleanup()
      modifies this
      ensures animationId == None
      ensures old(animationId) == None ==> unchanged(this)
      ensures old(animationId) != None ==>
        && cancelled == old(cancelled) + [old(animationId).value]
        && animationState == old(animationState) && animationProgress == old(animationProgress)
        && animationStartTime == old(animationStartTime) && startPosition == old(startPosition)
        && targetPosition == old(targetPosition) && lastClickTime == old(lastClickTime)
        && emitted == old(emitted) && group == old(group)
    {
      if animationId != None {
        cancelled := cancelled + [animationId.value];
        animationId := None;
      }
    }
  }

  /**
   * After a remount, a fresh controller resumes a stored animation that is 100 ms in; whatever
   * performance.now() reading its next frame carries, it puts the card at the origin instead of
   * the stored target.
   */
  method RemountedResumeLosesTarget(timestamp: real) returns (landed: Vec3, stored: Vec3)
    ensures stored == Vec3(1.0, 2.0, 3.0) && landed == Origin && landed != stored
  {
    stored := Vec3(1.0, 2.0, 3.0);
    var store := new CardGame.Store();
    store.StartCardAnimation(10000, 1, Origin, stored, PlayDuration);
    var group := new Object3D(Origin, Origin, Vec3(1.0, 1.0, 1.0));
    var c := new CardAnimation(group, 1, store);
    c.CheckStoredAnimation(10100, 1);
    c.AnimateCard(timestamp, 2);
    landed := group.position;
  }

  /**
   * The same remount with the restoring recovery: a frame at or after the original end time
   * puts the card exactly on the stored target.
   */
  method RemountedResumeReachesTarget(timestamp: real) returns (landed: Vec3, stored: Vec3)
    requires timestamp >= 5700.0
    ensures stored == Vec3(1.0, 2.0, 3.0) && landed == stored
  {
    stored := Vec3(1.0, 2.0, 3.0);
    var store := new CardGame.Store();
    store.StartCardAnimation(10000, 1, Origin, stored, PlayDuration);
    var group := new Object3D(Origin, Origin, Vec3(1.0, 1.0, 1.0));
    var c := new CardAnimation(group, 1, store);
    c.CheckStoredAnimationRestoring(10100, 5000.0, 1);
    c.AnimateCard(timestamp, 2);
    landed := group.position;
  }

  /**
   * The recovery ignores the controller's own phase: a controller that completed by jumping to
   * a nearly finished stored animation goes back to playing when the store later holds a new
   * playing record for the card.
   */
  method RecoveryReopensCompleted() returns (first: Phase, second: Phase)
    ensures first == Completed && second == Playing
  {
    var store := new CardGame.Store();
    store.StartCardAnimation(1000, 1, Origin, Vec3(1.0, 2.0, 3.0), PlayDuration);
    var group := new Object3D(Origin, Origin, Vec3(1.0, 1.0, 1.0));
    var c := new CardAnimation(group, 1, store);
    c.CheckStoredAnimation(1790, 3);
    first := c.animationState;
    store.StartCardAnimation(5000, 1, Origin, Vec3(1.0, 2.0, 3.0), PlayDuration);
    c.CheckStoredAnimation(5010, 4);
    second := c.animationState;
  }
}
