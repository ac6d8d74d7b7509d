// Value types shared by the store and the per-card controllers
// (types/Types.d.ts: Card and CardAnimationState).
module Types {

  /** The conventional optional value; `None` stands for JavaScript's null/undefined. */
  datatype Option<+T> = None | Some(value: T)

  /** A `[number, number, number]` tuple: a position, rotation or scale. */
  datatype Vec3 = Vec3(x: real, y: real, z: real)

  const Origin := Vec3(0.0, 0.0, 0.0)

  /** `Math.abs` on a real. */
  function Abs(x: real): real { if x < 0.0 then -x else x }

  /** A playable card of the fixed catalog. */
  datatype Card = Card(id: int, name: string, color: string)

  /** The three phases of a play animation. */
  datatype Phase = Idle | Playing | Completed

  /** The store's record of one card's play animation. Times are Date.now() milliseconds. */
  datatype CardAnimationState = CardAnimationState(
    cardId: int,
    startPosition: Vec3,
    targetPosition: Vec3,
    startTime: int,
    animationDuration: int,
    animationState: Phase)
}
