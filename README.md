# NuxTres card game — a Dafny model of its core

NuxTres is a small 3D card game built with Nuxt, Three.js (through TresJS) and GSAP.
The player has a hand of ten coloured cards. Clicking a card plays it: the card flies
from the hand to a grid on a wall, and a reset brings every card back to the hand.

This project models the logic behind that game:

- the card-game store, a Pinia store (`CardGame`): the catalog, the ordered
  duplicate-free list of played ids, the per-card animation records, the reset counter,
  and the two derived views of available and played cards;
- the per-card play controller (`Animation`): a click and the frame loop move it forward
  only, idle → playing → completed, while the recovery of a stored animation can also jump
  from idle to completed or send a completed card back to playing; a 500 ms click debounce, the frame step with its two easing curves, the exact snap onto the target at
  the end, recovery of a stored animation after a remount, and cleanup;
- the per-card hover controller (`Interaction`): a guarded hovered flag, tracked GSAP
  timelines cleared in place, the reset that follows the store's reset counter, and the
  render-loop decay of the z rotation;
- the texture cache (`Texture`): the cache key, lookup-or-insert into the global cache,
  the font-size rule, and disposal;
- the pure layout and colour arithmetic: hand positions (`Positioning`), wall grid
  positions (`WallLayout`), render orders (`RenderOrder`) and the text colour
  (`TextColor`);
- the sample counter store (`Sample`).

Shared value types are in `Types`. The mutable render transform of a Three.js object
(position, rotation and scale) is the class `Scene.Object3D`.

Stateful parts are Dafny classes whose methods state their whole new state. The pure
parts are functions, and the lemmas beside them state the promised properties.

Parameters stand in for things the model cannot see:

- Clocks. `Date.now()` is an `int` parameter `now`. `performance.now()` and frame
  timestamps are `real` milliseconds.
- `requestAnimationFrame` handles. The caller passes in the handle the browser would
  return; it is a non-zero `FrameId`.
- Canvas creation. Its outcome (drawn, no 2D context, or threw) is a parameter.
- Browser detection. `isBrowser` is a constructor argument.

Emitted `play` events and cancelled frames are kept as logs in the controller.

JavaScript numbers are modelled as `real`, and IEEE cases that change a branch are
written out:

- a zero duration in the recovery check: positive elapsed time gives Infinity, anything
  else gives NaN or -Infinity;
- a zero viewport width in the overlap factor;
- NaN from `parseInt` in the text colour.

`%` on the wall index follows JavaScript: the remainder takes the sign of the dividend.

The controller has two debounce tests that disagree at exactly 500 ms after the last
click. `startAnimation` accepts that click, but `isClickable` is false at that moment
(`Animation.CardAnimation.DebounceBoundary`).

## Model

| member | source | states |
|---|---|---|
| CardGame.CatalogDistinctIds | stores/cardGame.ts:6-17 | The catalog holds ids 1 to 10 in order, so its ids are distinct. |
| CardGame.CardMap | stores/cardGame.ts:29-33 | The lookup table's keys are exactly the catalog ids; each entry is a catalog card with that id; when an id repeats, the last card with that id wins. |
| CardGame.CardMapStep | stores/cardGame.ts:31 | `map.set(card.id, card)` on a lookup table of a list gives the lookup table of that list extended by the card. |
| CardGame.GetCardById | stores/cardGame.ts:96-98 | A card is found exactly when the id is a catalog id, and the card found is a catalog card with that id. |
| CardGame.GetCardByIdFinds | stores/cardGame.ts:96-98 | With distinct ids, looking up a catalog card's id returns that card. |
| CardGame.Available | stores/cardGame.ts:101-105 | A card is available exactly when it is in the catalog and its id is not played; the view is never longer than the catalog. |
| CardGame.AvailableAppend | stores/cardGame.ts:101-105 | The filter keeps catalog order: it distributes over concatenation. |
| CardGame.AvailableNothingPlayed | stores/cardGame.ts:101-105 | With no catalog id played, the available view is the whole catalog in order. |
| CardGame.Played | stores/cardGame.ts:107-112 | The played view is never longer than the played ids and holds only catalog cards whose ids were played. |
| CardGame.PlayedResolvesKnownIds | stores/cardGame.ts:107-112 | Every played id that the catalog knows shows up as its catalog card in the played view. |
| CardGame.PlayedAppend | stores/cardGame.ts:107-112 | The played view keeps play order: it distributes over concatenation of the id list. |
| CardGame.ViewsPartitionCatalog | stores/cardGame.ts:101-112 | With distinct ids, each catalog card is in exactly one of the two views, and neither view holds a card outside the catalog. |
| CardGame.PlayedDistinct | stores/cardGame.ts:107-112 | With distinct catalog ids and no repeated played id, the played view lists no card twice. |
| CardGame.PlayMovesCard | stores/cardGame.ts:39-47 | Playing a new catalog card appends exactly that card to the played view and removes exactly that card from the available view. |
| CardGame.Store.constructor | stores/cardGame.ts:6-26 | The store starts valid, with the catalog, no played ids, no animation records and a reset counter of 0. |
| CardGame.Store.ValidViews | stores/cardGame.ts:101-112 | In a valid store (distinct catalog ids, no repeated played id) the two views partition the catalog and the played view has no repeats. |
| CardGame.Store.PlayCard | stores/cardGame.ts:39-47 | Validity is kept. An id already played changes nothing. A new id is appended at the end and earlier entries are untouched. The ids stay duplicate-free, and nothing else changes. |
| CardGame.Store.StartCardAnimation | stores/cardGame.ts:52-66 | Only the record of `cardId` is inserted or overwritten: playing, with the given positions, start time and duration (1500 by default). Everything else is unchanged. |
| CardGame.Store.CompleteCardAnimation | stores/cardGame.ts:71-75 | With no record, nothing changes. Otherwise only that record's state changes, to completed. |
| CardGame.Store.GetCardAnimationState | stores/cardGame.ts:80-82 | A record is returned exactly when one exists for the id, and it is that record. |
| CardGame.Store.ResetGame | stores/cardGame.ts:87-91 | Validity is kept. Played ids and records are emptied, the counter goes up by exactly 1, and the catalog is untouched. Afterwards every lookup returns none, all cards are available and none are played. |
| CardGame.PlayTwiceThenReset | stores/cardGame.ts:39-47 | Playing card 3 twice records it once; a reset then makes the whole catalog available again. |
| Sample.SampleStore.constructor | stores/sample.ts:2-4 | The count starts at 0. |
| Sample.SampleStore.Increment | stores/sample.ts:7-9 | The count goes up by exactly one. |
| Sample.SampleStore.Decrement | stores/sample.ts:11-13 | The count goes down by exactly one. |
| Sample.IncrementThenDecrement | stores/sample.ts:7-13 | An increment followed by a decrement restores the count. |
| Animation.CubeMonotone | composables/useCardAnimation.ts:250-251 | Cubing is monotone, and strictly monotone, on non-negative reals; this is the power used by the easings. |
| Animation.Lerp | composables/useCardAnimation.ts:243-245 | t = 0 gives a and t = 1 gives b. For t in [0, 1] the result lies between a and b. |
| Animation.EaseInOutEndpoints | composables/useCardAnimation.ts:250-252 | easeInOut maps 0 to 0, 1/2 to 1/2 and 1 to 1. |
| Animation.EaseInOut | composables/useCardAnimation.ts:250-252 | easeInOut maps [0, 1] into [0, 1]; the lower half stays below 1/2 and the upper half at or above it. |
| Animation.EaseInOutMonotone | composables/useCardAnimation.ts:250-252 | easeInOut is non-decreasing on [0, 1]. |
| Animation.EaseInOutSymmetric | composables/useCardAnimation.ts:250-252 | easeInOut(1 - t) = 1 - easeInOut(t). |
| Animation.EaseOutBackEndpoints | composables/useCardAnimation.ts:257-261 | easeOutBack maps 0 to 0 and 1 to 1. |
| Animation.EaseOutBack | composables/useCardAnimation.ts:257-261 | Away from t = 1, easeOutBack is above 1 exactly when 2.70158 (t - 1) + 1.70158 > 0, and equal to 1 exactly when that is 0: it overshoots from t = 1 - 1.70158 / 2.70158 on. |
| Animation.EaseOutBackOvershoots | composables/useCardAnimation.ts:257-261 | easeOutBack overshoots 1 inside the interval (at 0.8), while easeInOut never leaves [0, 1]. |
| Animation.FrameProgress | composables/useCardAnimation.ts:114-116 | Frame progress never exceeds 1; it is non-negative for non-negative elapsed time; it is 1 exactly when at least 800 ms have elapsed. |
| Animation.RotationProgress | composables/useCardAnimation.ts:139 | Rotation progress is capped at 1, is non-negative for non-negative progress, and is 1 from half progress on. |
| Animation.FramePositionStarts | composables/useCardAnimation.ts:119-128 | At progress 0 the interpolated position is the start. |
| Animation.FramePositionEnds | composables/useCardAnimation.ts:119-128 | At progress 1 the interpolated position is the target. |
| Animation.FrameDepthBetween | composables/useCardAnimation.ts:121-128 | For progress in [0, 1] the interpolated depth stays between start and target depth. |
| Animation.WallTarget | composables/useCardAnimation.ts:72-80 | The target is wall position plus offset, pushed forward in z by 0.01 per card already played. |
| Animation.NearlyComplete | composables/useCardAnimation.ts:192-197 | With a positive duration, the record is nearly complete exactly when elapsed > 0.95 × duration. With a zero duration, exactly when elapsed > 0 (as the IEEE division gives). |
| Animation.NeverBackToIdle | composables/useCardAnimation.ts:43-226 | Along any run of controller steps, recovery included, a controller that has left idle never returns to it. |
| Animation.CompletedTerminal | composables/useCardAnimation.ts:43-176 | Along any run of play-path steps (the click and the frame loop), a completed controller stays completed. |
| Animation.RecoveryReopensCompleted | composables/useCardAnimation.ts:181-226 | The recovery ignores the local phase: a controller completed by a nearly finished stored record (790 of 800 ms) goes back to playing when the store then holds a new playing record. |
| Animation.CardAnimation.constructor | composables/useCardAnimation.ts:15-26 | A controller starts idle, with progress 0, no pending frame, start and target at the origin, last click at 0, and no events. |
| Animation.CardAnimation.IsAnimationPlaying | composables/useCardAnimation.ts:33 | True exactly when the card is playing or completed, so a completed card is never accepted again. |
| Animation.CardAnimation.IsClickable | composables/useCardAnimation.ts:34-36 | Clickable implies not playing and at least 501 ms after the last accepted click; idle and more than 500 ms after it is clickable. |
| Animation.CardAnimation.DebounceBoundary | composables/useCardAnimation.ts:34-54 | A clickable card is accepted by startAnimation. Exactly 500 ms after the last click, startAnimation accepts although isClickable is false. |
| Animation.CardAnimation.StartAnimation | composables/useCardAnimation.ts:43-105 | The phase only moves forward. When not idle or inside the debounce window, nothing changes, including lastClickTime. Otherwise all of the following happen. lastClickTime becomes now. The state becomes playing with progress 0. The target is wall + offset, plus 0.01 per played card on z. The store gets a playing record with duration 800. A pending frame is cancelled and the new one scheduled. Play is emitted exactly once. |
| Animation.CardAnimation.AnimateCard | composables/useCardAnimation.ts:110-176 | The phase only moves forward. Unless playing, nothing changes. Progress becomes min(elapsed/800, 1). Below 1, the group moves along the eased path, rotation x/y straighten, the scale eases, and the next frame is scheduled. At 1, the state becomes completed and the group sits exactly on the target with rotation x = y = 0 and scale 0.7. The store record is completed too. |
| Animation.MoveAlongPath | composables/useCardAnimation.ts:119-149 | One frame on the group: the position is the eased path point for the progress, rotation x/y move towards 0 by the rotation progress, z is kept, and the scale is the eased lerp from 1 to 0.7. |
| Animation.SnapToTarget | composables/useCardAnimation.ts:158-168 | The group ends exactly on the target, with rotation x = y = 0, rotation z kept and scale 0.7. |
| Animation.CardAnimation.CheckStoredAnimation | composables/useCardAnimation.ts:181-226 | As written. Without a playing stored record, nothing changes. With a group and progress > 0.95, it snaps to the stored target, zeroes the rotation and completes. Otherwise it plays on and schedules a frame only if none is pending. The controller's own start, target and start time are kept. |
| Animation.CardAnimation.CheckStoredAnimationRestoring | composables/useCardAnimation.ts:181-226 | The same effect on the phase, the store and the group. When it plays on, it also takes start and target from the stored record and backdates the start time by the elapsed time. |
| Animation.CardAnimation.Cleanup | composables/useCardAnimation.ts:231-237 | Afterwards no frame is pending. With none pending, nothing changes; so a second call changes nothing. Otherwise the pending frame is cancelled and nothing else changes. |
| Animation.RemountedResumeLosesTarget | composables/useCardAnimation.ts:181-226 | A fresh controller resuming a stored animation lands its card at the origin, not at the stored target (1, 2, 3). |
| Animation.RemountedResumeReachesTarget | composables/useCardAnimation.ts:181-226 | With the restoring recovery, the same remount lands exactly on the stored target at or after the original end time. |
| Interaction.NormalizedPosition | composables/useCardInteraction.ts:33 | The position is 0 when there are at most one card; otherwise it lies in [-1, 1] for every index. |
| Interaction.NormalizedPositionShape | composables/useCardInteraction.ts:33 | The first card is at -1 and the last at 1. Mirrored indices have opposite positions. |
| Interaction.NormalizedPositionIncreasing | composables/useCardInteraction.ts:33 | The position grows strictly with the index. |
| Interaction.HoverInTimeline | composables/useCardInteraction.ts:95-144 | The hover-in timeline lifts to y = 0.75 and z = 0.5 and tilts to -0.1; its turn is positive exactly left of the centre, zero exactly at it, and at most 0.15 in size. |
| Interaction.HoverTurnFacesCentre | composables/useCardInteraction.ts:133-144 | The hover-in turn, -normalizedPosition × 0.15, is positive left of the centre, negative right of it and zero at the centre. Mirrored cards turn by opposite amounts. |
| Interaction.Decay | composables/useCardInteraction.ts:315 | One render-loop step never increases the z rotation's magnitude and never flips its sign; zero stays zero. |
| Interaction.DecayStepsShrink | composables/useCardInteraction.ts:304-318 | However many steps run, the magnitude never grows from step to step, and the sign is kept. |
| Interaction.CardInteraction.constructor | composables/useCardInteraction.ts:14-46 | The controller starts not hovered, with no mesh, all hover values 0, nothing tracked, and the normalized position of its index (defaults 0 and 1); nothing has been killed yet. |
| Interaction.CardInteraction.TrackAnimation | composables/useCardInteraction.ts:49-51 | The tween is appended to the tracked animations and nothing else changes, the kill logs included. |
| Interaction.CardInteraction.TrackTimeline | composables/useCardInteraction.ts:54-56 | The timeline is appended to the tracked timelines and nothing else changes, the kill logs included. |
| Interaction.CardInteraction.KillAllAnimations | composables/useCardInteraction.ts:59-78 | Every tracked tween and timeline is appended, in order, to the log of killed ones, and both tracked lists are empty afterwards. With a mesh, only its z rotation changes, to 0. |
| Interaction.CardInteraction.OnPointerEnter | composables/useCardInteraction.ts:80-145 | While hovered, nothing changes. Otherwise the card becomes hovered and the mesh is remembered. The old tracked items are killed (appended to the kill logs). Exactly one new hover-in timeline is tracked: lift to y = 0.75 and z = 0.5, tilt -0.1, turn -normalizedPosition × 0.15. |
| Interaction.CardInteraction.OnPointerLeave | composables/useCardInteraction.ts:179-260 | While not hovered, nothing changes. Otherwise the card is no longer hovered and the tracked items are killed (appended to the kill logs). With a mesh, exactly one hover-out timeline is tracked. |
| Interaction.CardInteraction.ResetInteractionState | composables/useCardInteraction.ts:265-289 | Afterwards the card is not hovered, all four hover values are 0, and everything tracked has been killed and untracked. With a mesh, its position y and z are 0 and all three rotation axes are 0. |
| Interaction.CardInteraction.WatchResetCounter | composables/useCardInteraction.ts:291-297 | An unchanged reset counter changes nothing. A changed one performs the whole interaction reset. |
| Interaction.CardInteraction.RenderLoopStep | composables/useCardInteraction.ts:304-318 | With a mesh that is not hovered and has something left to settle, the z rotation becomes Decay(z). Otherwise, and always for position and scale, nothing changes. |
| Texture.CacheKey | composables/useCardTexture.ts:25 | The key is the name, a dash, the colour, a dash and the text colour, each recoverable at its fixed position. |
| Texture.CacheKeyInjective | composables/useCardTexture.ts:25 | When names and colours contain no dash, equal keys mean equal name, colour and text colour. |
| Texture.CacheKeyCollides | composables/useCardTexture.ts:25 | With a dash in a name, two different cards share a key, and so a texture. |
| Texture.FontSize | composables/useCardTexture.ts:66 | The font size is positive and at most 120. It is 120 exactly for names of at most 4 characters. Above that, size × length = 500. |
| Texture.CreateCardCanvas | composables/useCardTexture.ts:30-86 | A canvas exists exactly in a browser when drawing succeeds. It is 512 × 768 in the card colour, with the name at exactly `FontSize(name)`, in the text colour or white when that is empty. |
| Texture.CanvasTexture.constructor | composables/useCardTexture.ts:104 | A new texture holds the given canvas. |
| Texture.TextureCache.constructor | composables/useCardTexture.ts:6 | The global cache starts empty. |
| Texture.CardTexture.constructor | composables/useCardTexture.ts:114-116 | In a browser the texture is generated at once; elsewhere there is none and the cache is untouched. |
| Texture.CardTexture.GenerateTexture | composables/useCardTexture.ts:91-111 | On a hit, it returns the cached texture and changes nothing. On a miss where the canvas fails, it returns null and the cache is unchanged. On a successful miss, it inserts a new texture (needsUpdate set) under the key and returns it. Whatever non-null value it returns is what the cache holds under the key. |
| Texture.CardTexture.RegenerateTexture | composables/useCardTexture.ts:141-143 | The current texture becomes whatever generation gives, with the same cache effect. |
| Texture.CardTexture.SetProperties | composables/useCardTexture.ts:119-127 | When a value changed in a browser, the texture is regenerated. Otherwise the texture and the cache are unchanged. |
| Texture.CardTexture.Dispose | composables/useCardTexture.ts:132-136 | Only the local texture reference becomes null; the cache keeps every entry. |
| Texture.GenerateTwice | composables/useCardTexture.ts:91-111 | If the first call returns a texture, a second call right after it returns the same texture, and the cache holds exactly that texture as the one new entry. |
| Positioning.Clamp | composables/useCardPositioning.ts:21 | The clamped value lies in [lo, hi], and a value already inside the range is returned unchanged. |
| Positioning.ScaleFactor | composables/useCardPositioning.ts:21 | The hand scale lies in [0.5, 1.4] and equals width / 12 inside that range. |
| Positioning.CardDimensions | composables/useCardPositioning.ts:15-27 | Height / width is 1.5, the width is 2 × the scale factor, and it lies in [1, 2.8]. |
| Positioning.CardPadding | composables/useCardPositioning.ts:32-35 | The padding is never above 0.15, is non-negative for a non-negative width, and is 1.5% of the width up to width 10. |
| Positioning.OverlapFactor | composables/useCardPositioning.ts:40-57 | n ≥ 8 gives 0.4 + (n - 8) × 0.05, n ≤ 3 gives 0.1, and 4 ≤ n ≤ 7 gives a value in [0.1, 0.7]; it is never below 0.1. |
| Positioning.OverlapBelowOne | composables/useCardPositioning.ts:40-57 | With at most 19 cards the overlap is below a full card. |
| Positioning.EffectivePadding | composables/useCardPositioning.ts:75 | At most six cards keep the padding. Above six it shrinks, but stays between 0 and the padding. |
| Positioning.VisibleCardWidth | composables/useCardPositioning.ts:75-78 | The step without its padding is at most 0.9 card widths: neighbours always overlap by at least a tenth of a card. For a non-negative width and 2 to 19 cards the step is positive. |
| Positioning.GetCardPosition | composables/useCardPositioning.ts:67-96 | At most one card gives (0, 0, 0). Otherwise y = 0 and z = -index × 0.01. |
| Positioning.CardPositionX | composables/useCardPositioning.ts:78-87 | x is the step times the index's offset from (n - 1) / 2. |
| Positioning.CardPositionStep | composables/useCardPositioning.ts:78-87 | Neighbouring x values differ by exactly the visible card width. |
| Positioning.CardPositionCentred | composables/useCardPositioning.ts:81-87 | The hand is centred: x(i) + x(n - 1 - i) = 0. |
| Positioning.CardDepthDecreasing | composables/useCardPositioning.ts:93 | z strictly decreases with the index. |
| Positioning.GetCardRotation | composables/useCardPositioning.ts:105-113 | As written. Rotation x is always -0.08 and z is always 0; y is 0 for at most five cards. |
| Positioning.FanLopsided | composables/useCardPositioning.ts:110 | With six cards, the as-written fan turns the outer cards by -0.03 and 0.02, which are not opposite. |
| Positioning.GetCardRotationCentred | composables/useCardPositioning.ts:105-113 | The same tilt and the same five-card threshold, with the fan turned about (n - 1) / 2. |
| Positioning.FanCentredSymmetric | composables/useCardPositioning.ts:110 | The centred fan is symmetric, y(n - 1 - i) = -y(i), and strictly increasing in the index. |
| WallLayout.LayoutConfig | composables/useWallLayout.ts:14-35 | There are 5 columns above width 15 and 4 otherwise. The scale lies in [0.7, 1.2] and is width / 15 inside. The spacings are 3.3 × scale and 3.85 × scale, both positive. |
| WallLayout.JsRem | composables/useWallLayout.ts:52 | JavaScript `%`: Dafny's remainder for a non-negative index; a negative index gives a remainder in (-divisor, 0]. |
| WallLayout.GetWallPosition | composables/useWallLayout.ts:45-66 | Zero cards give (0, 0, 0). Otherwise z = index × 0.01 and y = -row × vertical spacing. |
| WallLayout.GridDecomposition | composables/useWallLayout.ts:51-52 | For a non-negative index, index = row × columns + col with 0 ≤ col < columns. |
| WallLayout.GridCell | composables/useWallLayout.ts:51-52 | The card at row r and column c of the grid gets exactly that row and column back. |
| WallLayout.ColumnX | composables/useWallLayout.ts:55-59 | The full-row offset shifted by half the gap equals x = (col - (rowWidth - 1) / 2) × spacing: the offset from the middle of the row's own cards. |
| WallLayout.ColumnCentred | composables/useWallLayout.ts:55-59 | Columns col and rowWidth - 1 - col of a row have opposite x. |
| WallLayout.WallPositionX | composables/useWallLayout.ts:51-59 | The card in row r and column c takes that column's x within its row. |
| WallLayout.WallRowCentred | composables/useWallLayout.ts:55-59 | Each row, full or not, is centred: mirrored columns of a row have opposite x. |
| WallLayout.WallDepthIncreasing | composables/useWallLayout.ts:63 | z strictly increases with the index. |
| WallLayout.WallCardScale | composables/useWallLayout.ts:71-74 | The scale is uniform, 0.9 × the layout scale on all three axes, and lies in [0.63, 1.08]. |
| RenderOrder.HandRenderOrder | composables/useRenderOrder.ts:16-31 | A lone card gets 1000, and no card ever gets less than 1000. |
| RenderOrder.HandRenderOrderBounds | composables/useRenderOrder.ts:16-31 | For a card in the hand (including a lone card giving 1000) the order lies in [1000, 1100]. |
| RenderOrder.HandRenderOrderEdges | composables/useRenderOrder.ts:17-30 | The first and last cards get 1100. |
| RenderOrder.HandRenderOrderCentre | composables/useRenderOrder.ts:17-30 | For an odd number of cards, the middle card gets 1000. |
| RenderOrder.HandRenderOrderSymmetric | composables/useRenderOrder.ts:16-31 | Mirrored indices get the same order. |
| RenderOrder.HandRenderOrderMonotone | composables/useRenderOrder.ts:20-30 | A card at least as far from the centre never gets a lower order. |
| RenderOrder.WallRenderOrder | composables/useRenderOrder.ts:41-44 | The wall order equals the stack order of the same index; it is at least 1000 exactly for non-negative indices. |
| RenderOrder.StackRenderOrder | composables/useRenderOrder.ts:52-54 | The stack order is at least 1000 for non-negative indices and below 1000 for negative ones. |
| RenderOrder.IndexOrdersIncrease | composables/useRenderOrder.ts:41-54 | Wall and stack orders both strictly increase with the index, are equal to each other and ignore the card count. They are at least 1000 exactly for non-negative indices. |
| TextColor.StripFirstHash | composables/useTextColor.ts:10 | A string without '#' is unchanged; otherwise exactly one character goes. |
| TextColor.StripFirstHashSplits | composables/useTextColor.ts:10 | Only the first '#' is removed; later ones stay. |
| TextColor.Substring | composables/useTextColor.ts:13-15 | `substring` clamps both ends to the string; inside the string it is the ordinary slice. |
| TextColor.HexDigit | composables/useTextColor.ts:13-15 | A hexadecimal digit, in either case, has a value in 0..15. |
| TextColor.HexPrefix | composables/useTextColor.ts:13-15 | The prefix parseInt reads is the longest run of leading hex digits. |
| TextColor.HexValue | composables/useTextColor.ts:13-15 | A run of p hex digits has a value in [0, 16^p). |
| TextColor.ParseHex | composables/useTextColor.ts:13-15 | parseInt(·, 16) is a number exactly when the string starts with a hex digit, and it is then non-negative; otherwise it is NaN. |
| TextColor.TwoDigits | composables/useTextColor.ts:13-15 | Two hex digits read as 16 × first + second, a value in 0..255. |
| TextColor.WellFormedComponents | composables/useTextColor.ts:10-15 | For six hex digits, with or without a leading '#', stripping gives the digits. The three components are the three digit pairs, each in 0..255. |
| TextColor.Contrast | composables/useTextColor.ts:18-21 | The decision is one of the two colours, and black only when all three components are numbers. |
| TextColor.TextColor | composables/useTextColor.ts:5-22 | The result is always one of exactly two strings, "#000000" or "#ffffff". |
| TextColor.ContrastInteger | composables/useTextColor.ts:18-21 | The result is "#000000" exactly when all three components are numbers and 299r + 587g + 114b > 128000; otherwise it is "#ffffff", NaN included. |
| TextColor.ContrastMonotone | composables/useTextColor.ts:18-21 | Raising components can turn white text black, never black text white. |
| TextColor.TextColorOfPairs | composables/useTextColor.ts:5-22 | For six hex digits, the colour with or without '#' is the decision on the three pair values. |
| TextColor.WhiteBackground | composables/useTextColor.ts:5-22 | "ffffff" and "#ffffff" give "#000000". |
| TextColor.BlackBackground | composables/useTextColor.ts:5-22 | "000000" and "#000000" give "#ffffff". |

## Left out

- `composables/useViewport.ts` is not part of this model: it is trigonometry over window dimensions and resize listeners.
- `composables/useClientNavigation.ts` is not part of this model: it is lifecycle hooks and timeouts. It also calls a `forceRefresh` that the positioning composable never returns.
- `composables/useCardGame.ts` is not part of this model: it only delegates to `playCard` and `resetGame`, which are modelled.
- `nuxt.config.ts` and `tailwind.config.ts` are not part of this model: they are build and styling configuration.
- GSAP itself is left out: timeline and tween interpolation, the named easing curves, opacity tweens, and the `onUpdate`/`onComplete` callbacks that copy the mesh position into `hoverY`/`hoverZ` or reset them. A timeline is modelled only as the target values it animates toward.
- `_startFloatingAnimation` is left out: nothing calls it. The write-only flag `_isAnimating` and the unused tween fields are left out too.
- The cursor style is left out, because it is DOM state.
- `console.log` output is left out.
- Canvas drawing is left out (gradient, borders, shadow, the text itself): a drawn canvas is the record of background, text, font size and fill. Three.js `CanvasTexture` is a class holding that record and `needsUpdate`.
- `requestAnimationFrame` and `cancelAnimationFrame` are handles, with no scheduler. The frame loop is driven by calling `AnimateCard` once per frame.
- The relation between `Date.now()` and `performance.now()` is not modelled. `startAnimation` reads `Date.now()` twice, once itself and once in the store; both readings are one `now`.
- `emitPlay` is a log of emitted ids. What the parent component does with the event is not modelled.
- The unmount hook that kills all animations is `KillAllAnimations`, called by whoever unmounts.
- Vue reactivity (`computed`, `watch`) is left out. Computed values are functions evaluated on demand, and each watch is an explicit method call (`WatchResetCounter`, `SetProperties`).
- `minCardSpacing`, a parameter of the positioning composable, is left out because no code reads it. `_hoverTransitionSpeed` is left out for the same reason.
- Floating-point rounding is left out: arithmetic is exact over `real`. The exact snap onto the target holds by assignment, so it does not depend on this.
- Animation.NeverBackToIdle: completed is not terminal for the controller as a whole. The recovery sets playing whenever the store holds a playing record, whatever the local phase, so a completed card can go back to playing (`Animation.RecoveryReopensCompleted`); only the click and the frame loop are proved never to leave completed (`Animation.CompletedTerminal`).
- Animation.FrameProgress: a frame timestamp before the start time gives negative progress, as in the source. The contract states the floor of 0 only for non-negative elapsed time.
- TextColor.ParseHex: leading whitespace, a sign and a 0x prefix, which `parseInt` also accepts, are not modelled.
- Texture.FontSize: `name.length` is counted in Unicode scalar values, not UTF-16 code units.
- Animation.CardAnimation.StartAnimation: the source's second idle test after the debounce is not modelled. After the first guard it always passes.

## Findings

| source | as written | input that shows it | evidently intended | confidence | as-written member | corrected member |
|---|---|---|---|---|---|---|
| composables/useCardAnimation.ts:181-226 | The recovery resumes the frame loop with the controller's own start and target positions and start time. After a remount these are still the initial zeros. | A stored record playing for 100 ms with target (1, 2, 3), recovered by a freshly mounted controller. Any next frame puts the card at (0, 0, 0). | Resume from the stored record's start and target, with the start time backdated by the elapsed time, so the card lands on its stored target. | medium, not executed | Animation.CardAnimation.CheckStoredAnimation (shown by Animation.RemountedResumeLosesTarget) | Animation.CardAnimation.CheckStoredAnimationRestoring (with Animation.RemountedResumeReachesTarget) |
| composables/useCardPositioning.ts:110 | The fan rotation is (index - n / 2) × 0.01, centred on n / 2, half a card right of the row's middle. | n = 6: the first card turns by -0.03 and the last by 0.02. | Centre the fan on (n - 1) / 2, as the normalized position and the render order do, so mirrored cards turn by opposite amounts. | low, not executed | Positioning.GetCardRotation (shown by Positioning.FanLopsided) | Positioning.GetCardRotationCentred (with Positioning.FanCentredSymmetric) |
