# Music player card stack — a Dafny model

This project models the stateful logic of the `MusicPlayer` React component
(`src/App.jsx`). The component is a music player that shows its playlist as a
stack of swipeable cards. The model covers:

- **Track index arithmetic** (`TrackIndex`): `handleNext` and `handlePrev`
  with wrap-around at both ends. JavaScript's truncating `%` is modelled
  explicitly as `JsRem`.
- **Time display** (`TimeFormat`): `formatTime` renders seconds as `m:ss`.
  `ParseTime` is its inverse, and the two are proved to agree in both
  directions.
- **Card stack layout** (`CardLayout`): each card's depth
  `(index - current + N) % N` and the tier (offset, scale, z-index, opacity)
  it maps to. `Rearrange` is the array-filling pass of `rearrangeCards`.
  Scale and opacity are integer percentages.
- **Swipe classifier** (`Swipe`): horizontal displacement compared with the
  strict threshold of 50 pixels. The mapping is inverted on purpose: a right
  swipe goes to the previous track, a left swipe to the next one.
- **Player state** (`Player.MusicPlayer`): a class with the current index,
  the playing flag, the two touch coordinates and the card styles. Its
  invariant `Valid()` states that the index is a track and that the cards
  show the layout for that index. Each handler of the component is a method.
  Calls on the audio element are not performed. They are returned as an
  `AudioRequest` value: pause, play, or load-and-play a track.

The playlist (`music-data.json`) is represented only by its length
`trackCount > 0`. `music-data.json` is not part of this model.

`rearrangeCards` is called from `changeSong` through a closure that still
reads the previous `currentSongIndex`. The effect on `currentSongIndex`
(`src/App.jsx:167-171`) then runs it again with the new index.
`ChangeSong` does the same two passes. So after every transition the cards
show the layout of the new index, and `Valid()` records this.

This ordering assumes that React batches the two state updates of
`changeSong` (`setCurrentSongIndex` and `setIsPlaying`) into one render, as
React 18 does for every update. Under legacy rendering, an update started from
the swipe timer (`src/App.jsx:60`) or from the native `ended` listener
(`src/App.jsx:186`) renders synchronously. The layout effect would then run
first, and the stale `rearrangeCards()` call (`src/App.jsx:152`, and
`src/App.jsx:69` after a swipe) would run last and leave the previous track's
layout. The React version is not part of this model.

## Model

| member | source | states |
|---|---|---|
| `TrackIndex.JsRem` | src/App.jsx:162-163 | JavaScript `%` with a positive divisor: for a non-negative dividend it is the usual remainder in [0, b); for a negative one it lies in (-b, 0] |
| `TrackIndex.NextIndex` | src/App.jsx:156-159 | the next index is in [0, N); it is i + 1, except that the last index N - 1 wraps to 0 |
| `TrackIndex.PrevIndex` | src/App.jsx:161-165 | the previous index is in [0, N); it is i - 1, except that 0 wraps to N - 1 |
| `TrackIndex.PrevNextInverse` | src/App.jsx:156-165 | previous after next, and next after previous, both give back the original index |
| `TrackIndex.AdvanceIsModular` | src/App.jsx:186 | k successive `handleNext` calls (k tracks ending one after another) reach (i + k) mod N |
| `TrackIndex.FullCycle` | src/App.jsx:186 | after N tracks have ended in a row, playback is back on the track it started from |
| `TimeFormat.NatToDecimal` | src/App.jsx:36 | the decimal rendering of a number is a non-empty digit string without a leading zero, whose value is that number; it has one digit exactly when the number is below 10 |
| `TimeFormat.FormatTime` | src/App.jsx:33-37 | the text ends with a colon and exactly two digits; the part before the colon is the canonical numeral for seconds / 60; the two digits denote seconds % 60, zero-padded below ten |
| `TimeFormat.ParseFormat` | src/App.jsx:33-37 | reading a formatted time back gives the original seconds, i.e. mins * 60 + secs == seconds |
| `TimeFormat.FormatParseInverse` | src/App.jsx:33-37 | a string parses to s exactly when it is the formatted form of s (both directions) |
| `TimeFormat.CanonicalRoundTrip` | src/App.jsx:36 | every canonical numeral is the rendering of its own value, so the minutes field is the only text that can stand for a minute count |
| `TimeFormat.FormatTimeExamples` | src/App.jsx:33-37 | 65 gives "1:05", 5 gives "0:05", 0 gives "0:00", 90 gives "1:30", 180 gives "3:00" |
| `CardLayout.Depth` | src/App.jsx:80-81 | depth is in [0, N); it is 0 exactly for the current card; it is the forward cyclic distance from the current card; current + depth is the card's index mod N |
| `CardLayout.TierOf` | src/App.jsx:83-99 | depth 0, 1, 2 and 3 or more map to offset 0/15/30/45 px, scale 100/95/90/85 %, z-index 5/4/3/2 and opacity 100/90/80/70 %, i.e. each field moves by a fixed step (15 px, -5 %, -1, -10 %) per tier up to tier 3; its properties are stated by `TierMonotone` and `TopTierOnlyAtDepthZero` |
| `CardLayout.Layout` | src/App.jsx:76-99 | one style per track (length N), card `i` having the tier of its depth relative to the current track; `Rearrange`, `ExactlyOneTop` and the player invariant are stated against it |
| `CardLayout.TierMonotone` | src/App.jsx:83-99 | as depth grows, offset never decreases, while scale, z-index and opacity never increase |
| `CardLayout.TopTierOnlyAtDepthZero` | src/App.jsx:83-99 | z-index 5 and full opacity belong to depth 0 alone; every other depth has a strictly lower z-index |
| `CardLayout.ExactlyOneTop` | src/App.jsx:76-99 | in the layout for any current index, exactly one card is on top, the current one, and every other card's z-index is strictly lower |
| `CardLayout.DepthIsAdvance` | src/App.jsx:80-81 | the card at depth k is exactly the track that k presses of next reach, so each depth below N is held by one card |
| `CardLayout.DepthAfterNext` | src/App.jsx:80-81 | after `handleNext`, every card rises one depth and the top card goes to depth N - 1 |
| `CardLayout.Rearrange` | src/App.jsx:75-105 | after the pass, the card array equals the layout for (N, current), whatever it held before, so running the pass twice gives identical styles |
| `Swipe.Classify` | src/App.jsx:116-127 | a displacement of at most 50 either way is no swipe; more than 50 to the right is a right swipe; more than 50 to the left is a left swipe (each an if-and-only-if) |
| `Swipe.ClassifyTranslationInvariant` | src/App.jsx:118 | only the displacement end - start decides the gesture |
| `Swipe.ClassifyReversed` | src/App.jsx:116-127 | the reverse movement gives the mirrored gesture |
| `Swipe.ThresholdBoundaries` | src/App.jsx:117-120 | ±49 and ±50 pixels are no swipe; +51 is a right swipe and -51 a left swipe |
| `Swipe.Target` | src/App.jsx:63-67 | no swipe keeps the track; a left swipe goes to the next track and a right swipe to the previous one, with wrap-around |
| `Swipe.SwipeThenReverseRestores` | src/App.jsx:63-67 | a swipe followed by the reverse movement returns to the starting track |
| `Player.MusicPlayer.constructor` | src/App.jsx:7-16 | the player starts on track 0, paused, with both touch coordinates 0 and the cards laid out for track 0 |
| `Player.MusicPlayer.TogglePlay` | src/App.jsx:19-30 | negates the playing flag and keeps the current track; it asks for pause when it was playing and for play otherwise |
| `Player.MusicPlayer.ChangeSong` | src/App.jsx:130-153 | the current track becomes exactly the given index and the player is playing, whatever the state before; the new track is loaded and played; the cards are laid out for it |
| `Player.MusicPlayer.Next` | src/App.jsx:156-159 | moves to the next track with wrap-around from the last to the first, and plays it |
| `Player.MusicPlayer.Prev` | src/App.jsx:161-165 | moves to the previous track with wrap-around from the first to the last, and plays it |
| `Player.MusicPlayer.Ended` | src/App.jsx:186 | the end of a track has exactly the effect of `handleNext` |
| `Player.MusicPlayer.CardClick` | src/App.jsx:244 | clicking the active card changes nothing (no index change, no audio request, same styles); clicking any other card selects and plays it |
| `Player.MusicPlayer.TouchStartAsWritten` | src/App.jsx:108-110 | as written: records the start coordinate and leaves the end coordinate as it was |
| `Player.MusicPlayer.TouchStart` | src/App.jsx:108-110 | corrected (see Findings): both coordinates start at the touch point |
| `Player.MusicPlayer.TouchMove` | src/App.jsx:112-114 | records the end coordinate only |
| `Player.MusicPlayer.TouchEnd` | src/App.jsx:116-127 | classifies the displacement; a left swipe plays the next track, a right swipe the previous one; no swipe changes nothing |
| `Player.MusicPlayer.Tap` | src/App.jsx:108-127 | with the corrected touch start, a touch without movement is never a swipe and changes nothing |
| `Player.FirstTapAsWrittenSwipes` | src/App.jsx:108-127 | as written, a first tap at x = 200 on a fresh three-track player is read as a left swipe and moves from track 0 to track 1 |
| `Player.FirstTapStays` | src/App.jsx:108-127 | with the corrected touch start, the same tap is no swipe and the player stays on track 0 |

## Findings

| source | as written | input that shows it | evidently intended | confidence | as-written member | corrected member |
|---|---|---|---|---|---|---|
| src/App.jsx:108-118 | `handleTouchStart` sets only the start coordinate. `handleTouchEnd` compares it with whatever end coordinate the last `touchmove` (or mount, value 0) left. | Fresh player with 3 tracks. Touch at x = 200, then lift without moving. The displacement is 0 - 200 = -200, so the tap counts as a left swipe and the player moves to track 1. | A touch without movement is not a swipe: the gesture state starts again at every touch. | high that the code behaves so; not executed | `Player.FirstTapAsWrittenSwipes` | `Player.MusicPlayer.TouchStart` |

The corrected `TouchStart` also sets the end coordinate to the touch point.
`Tap` and `FirstTapStays` prove that a tap is then a no-op. The
as-written `TouchStartAsWritten` is kept beside it.

## Left out

- The audio element is not modelled: `play()` promises, `pause`, setting `src` and `currentTime`, the `canplay`, `timeupdate` and `error` listeners, and the filtering of `AbortError` and `MEDIA_ERR_ABORTED`. These are asynchronous browser APIs. Transitions return the request they would make (`AudioRequest`) instead.
- Timers and CSS class toggling are not modelled: the 500 ms delay before a swipe changes track, the 400 ms `move-up` class, and the `swiping-left`/`swiping-right` classes. `TouchEnd` applies the index change at once. So a second change made inside the 500 ms window, which the source would compute from a stale index, is not captured.
- `updateProgress` and the progress percentage are not modelled. They use floating-point division over media timing.
- FormatTime: takes whole non-negative seconds, which is what the source's `Math.floor` calls give for non-negative finite input. A `NaN` duration never reaches `formatTime`: `updateProgress` maps it to 0 and then skips formatting (`src/App.jsx:42-44`). An `Infinity` duration (a stream, or a file of unknown length) does reach it, through `src/App.jsx:47` and `src/App.jsx:263`, and renders "Infinity:NaN"; that case is not modelled.
- Swipe.Classify: coordinates are integers. A fractional displacement strictly between 50 and 51 pixels, which the source counts as a swipe, is not represented.
- The `if (currentCard)` guard in `swipeCard` is not modelled: every card is assumed to be mounted, so the guard always passes.
- React rendering is not modelled: hook and ref lifecycle, JSX and SVG, the `active` class and the play/pause button label, `console.error` logging, and CSS imports.
- The contents of `music-data.json` are not modelled; only its length appears.
