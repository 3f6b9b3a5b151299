# Audiogram template: subtitle pagination and waveform bars

This project models in Dafny the two pieces of selection logic of the Remotion
audiogram template. Everything else in the template is component wiring.

- **Subtitles** (`src/Subtitles.tsx`). `useWindowedFrameSubs` converts the
  parsed SRT entries from seconds to frame numbers. It keeps an entry only
  when its start frame lies in `[windowStart, windowEnd]`.
  `PaginatedSubtitles` then takes these steps:
  - it picks the current entry, the last one that has started;
  - it groups the started entries into lines (the `lineSubs` loop);
  - it finds the current line and the first line of the page;
  - it flattens one page of `linesPerPage` lines;
  - it clamps the scroll offset at zero.
- **Composition** (`src/Composition.tsx`). `AudioViz` cuts a window out of one
  frame's frequency data and, when `mirrorWave` is set, shows it reflected as
  `reverse(subset[1..]) ++ subset`. `AudioGramSchema` constrains the props.
  `AudiogramComposition` passes the frame window
  `[audioOffsetInFrames, audioOffsetInFrames + durationInFrames]` to the
  subtitles.

The model has three modules:
- `JsArray` (`js_array.dfy`) models the JavaScript array built-ins the code
  calls: `slice` with its negative-index rules, `reverse`, `find`, `findIndex`
  and `reduce`. It also holds the reference definitions they are proved
  against: `Filter`, `FilterIndices`, `Map`, `FlatMap` and `Concat`.
- `Subtitles` (`subtitles.dfy`).
- `Composition` (`composition.dfy`).

The `lineSubs` loop assigns into an array step by step, so it is the method
`Subtitles.LineSubs`. Its loop invariant ties it to the function
`GroupLines`. Everything else in the core is an expression and is modelled by
functions.

Modelling decisions:
- Times in seconds are exact `real`s. The conversion `Math.floor(s * fps)` is
  `(s * fps).Floor`.
- A missing `startFrame`/`endFrame` is `None`. It plays the role of the
  defaults `-Infinity` and `+Infinity`.
- The SRT entry type declared in `types/global.d.ts:2-6` has no `id` field.
  The components still read `item.id` (`src/Subtitles.tsx:75,183`). The model
  follows the code, so both item datatypes carry an `id`.
- `AudiogramComposition` hands the subtitle text to `PaginatedSubtitles` as a
  prop named `subtitles` (`src/Composition.tsx:191`), but the component reads
  a prop named `src` (`src/Subtitles.tsx:99`). The model takes the parsed
  entry list directly, which is what the code evidently intends.
  `subtitlesTextColor`, `subtitlesZoomMeasurerSize`, `subtitlesLineHeight` and
  `onlyDisplayCurrentSentence` are passed too, but the component declares
  none of them.

What the proofs show:
- Windowing keeps exactly the entries whose start frame lies in the window.
  It never looks at the end frame. It keeps the original order and changes
  only the two times.
- The current entry is the last entry that has started.
- `lineSubs` never has more than one line, because `lineIndex` is the
  constant 0. So the current line index is always 0.
- With `linesPerPage >= 1` the page shows exactly the started entries, in
  order. With `linesPerPage <= 0` it shows nothing.
- The mirrored wave has `2k-1` bars for a subset of `k` values, is a
  palindrome, and ends with the subset.
- The number of bars never exceeds `waveLinesToDisplay`.

## Model

| member | source | states |
|---|---|---|
| `JsArray.Slice` | src/Composition.tsx:73-76 | `slice(start, end)` for non-negative arguments is the run `s[min(start,len)..min(end,len)]`; it is empty when `end <= start` or `start >= len`, and never longer than `s` |
| `JsArray.Reverse` | src/Subtitles.tsx:117-119 | the reversed copy has the same length and holds `s[len-1-i]` at position `i` |
| `JsArray.FindIndex` | src/Subtitles.tsx:159-162 | `findIndex` is -1 exactly when no element matches; otherwise it is a matching position with no match before it |
| `JsArray.Find` | src/Subtitles.tsx:117-120 | `find` is undefined exactly when no element matches; otherwise it is the first matching element |
| `JsArray.ReduceAppending` | src/Subtitles.tsx:28-45 | a `reduce` whose callback only appends a piece per element yields the pieces of all elements, concatenated in order |
| `JsArray.FlattenIsConcat` | src/Subtitles.tsx:181 | `reduce((subs, item) => [...subs, ...item], [])` is the in-order concatenation of the lines |
| `Subtitles.WithFramesSpec` | src/Subtitles.tsx:30-41 | a converted entry keeps its id and text, and its start and end are the floors of `start * fps` and `end * fps` |
| `Subtitles.WindowedIsFilterMap` | src/Subtitles.tsx:26-47 | the windowing reduce equals "filter by start frame in window, then convert each entry", in the original order |
| `Subtitles.WindowedFrameSubsSpec` | src/Subtitles.tsx:28-45 | the result is no longer than the input; it is the converted entries at strictly increasing positions, and a position is among them iff `windowStart <= startFrame <= windowEnd` (the end frame plays no part) |
| `Subtitles.WindowedMembership` | src/Subtitles.tsx:28-45 | an entry is in the windowed list iff it is a parsed entry, converted, whose start frame lies in the window |
| `Subtitles.UnboundedWindowKeepsAll` | src/Subtitles.tsx:22 | with both bounds absent (-Infinity/+Infinity) every parsed entry is kept, converted, in order |
| `Subtitles.KeptItemMayEndPastWindow` | src/Subtitles.tsx:33 | an entry from second 1 to 5 at 10 fps, windowed to frames [0, 20], is kept although it ends at frame 50 |
| `Subtitles.CurrentIsLastStarted` | src/Subtitles.tsx:117-120 | the current entry is absent iff no entry has `start < frame`; otherwise it is an entry with `start < frame` after which no entry has started |
| `Subtitles.LineSubs` | src/Subtitles.tsx:144-157 | the loop builds `GroupLines`: at most one line, every line non-empty and made of entries of the input with `start < frame` |
| `Subtitles.GroupLinesSpec` | src/Subtitles.tsx:144-157 | at most one line; no line iff no entry has started; otherwise the line holds exactly the started entries, at strictly increasing input positions |
| `Subtitles.CurrentLineIndex` | src/Subtitles.tsx:159-162 | the index is 0 or a valid line; when some line holds the current entry it is the first such line, otherwise it falls back to 0 |
| `Subtitles.CurrentLineIsFirst` | src/Subtitles.tsx:144-162 | in the component the current line index is always 0, and when there is a current entry the single line holds it |
| `Subtitles.StartLine` | src/Subtitles.tsx:164 | the first page line is never negative and never below `currentLineIndex - (linesPerPage - 1)`, and equals one of the two (so it is exactly their maximum, also for `linesPerPage <= 0`); for `linesPerPage >= 1` the current line lies on the page |
| `Subtitles.PageSpec` | src/Subtitles.tsx:179-181 | the page is the in-order concatenation of at most `linesPerPage` consecutive lines starting at `startLine` |
| `Subtitles.DisplayedItemsAreStarted` | src/Subtitles.tsx:144-181 | the rendered entries are exactly the started entries in order when `linesPerPage >= 1`, and none when `linesPerPage <= 0` |
| `Subtitles.LineOffset` | src/Subtitles.tsx:132 | the scroll offset is non-negative, at least `linesRendered - linesPerPage`, and equal to 0 or to that difference |
| `Composition.JsRoundIsNearest` | src/Composition.tsx:75 | `Math.round(x)` is the integer within half a unit of `x`, halves rounded up |
| `Composition.RoundHalf` | src/Composition.tsx:75 | `Math.round(n / 2)` is `(n + 1) / 2` in integer division for every integer `n` |
| `Composition.MirrorShape` | src/Composition.tsx:78-80 | the mirrored bars number `2k-1` for a subset of `k > 0` values and 0 for none, read the same backwards, and end with the subset |
| `Composition.MirrorAt` | src/Composition.tsx:78-80 | bar `i` of a mirrored subset of `k` values shows the value at distance `abs(i - (k-1))` from the first, so the first value sits in the middle, once |
| `Composition.UnmirroredBarsAreWindow` | src/Composition.tsx:73-81 | unmirrored, the bars are `frequencyData[start .. start + waveLinesToDisplay]` clipped at the end of the data |
| `Composition.MirroredBarsAreReflectedWindow` | src/Composition.tsx:73-81 | mirrored, the bars are the mirror of the clipped window of `(n + 1) / 2` values from `start` |
| `Composition.BarCount` | src/Composition.tsx:73-81 | there are at most `waveLinesToDisplay` bars in either mode; exactly `n` unmirrored, and `n` for odd / `n - 1` for even `n >= 2` mirrored, when the data is long enough |
| `Composition.MirroredBarCount` | src/Composition.tsx:75-80 | mirrored, there are at most `n` bars, and `n` for odd / `n - 1` for even `n >= 2` when the data holds `(n + 1) / 2` values from the start |
| `Composition.NoBarsPastEnd` | src/Composition.tsx:73-76 | a start index at or beyond the data length gives no bars, in both modes |
| `Composition.ValidProps` | src/Composition.tsx:19-36 | the schema as a predicate: the six numeric fields are non-negative integers and `waveNumberOfSamples` is one of the five enum strings; the `zColor` formats are not checked |
| `Composition.NumberOfSamples` | src/Composition.tsx:180 | `Number(waveNumberOfSamples)` of a valid prop set is the number the enum string spells: "32" gives 32, "64" gives 64, "128" gives 128, "256" gives 256, "512" gives 512 |
| `Composition.VizBars` | src/Composition.tsx:176-183 | for valid props the bars number at most `waveLinesToDisplay`, and none when the start index is past the data |
| `Composition.DefaultPropsDraw29Bars` | src/Root.tsx:19-44 | the registered default props pass the schema, ask for 256 samples, and draw 29 mirrored bars once the data has at least 22 values |
| `Composition.SubtitleWindowSpec` | src/Composition.tsx:190-194 | with valid props a subtitle entry is kept iff its start frame lies in `[audioOffsetInFrames, audioOffsetInFrames + durationInFrames]` |
| `Composition.CaptionsShown` | src/Composition.tsx:186-200 | with at least one line per page, a caption is shown iff it is a converted parsed entry that starts inside the audio window and before the current frame; with zero lines per page none is shown |

## Left out

- SRT parsing (`parse-srt`) is an external library. The model starts from the list of parsed entries.
- `useAudioData` and `visualizeAudio` are an external audio analysis library. The frequency data is an opaque sequence of any element type. The early exit `if (!audioData) return null` (`src/Composition.tsx:60-62`), which draws no bars until the audio is decoded, is not modelled: the model starts from decoded data.
- The DOM measurements behind `linesRendered` and the zoom factor (`src/Subtitles.tsx:126-131`) are browser layout. `linesRendered` is an input of `LineOffset`.
- `LineOffset` does not model a NaN `linesRendered`, which `Math.max` would propagate.
- JavaScript floating point is not modelled: seconds, frame rates and numeric props are exact reals.
- Bar heights (`500 * Math.sqrt(v)`) and the promo rotation (`Math.sin`) are floating-point styling.
- `delayRender`/`continueRender`, the `fetch` of the subtitle file and `ensureFont` are host-framework asynchrony and I/O. The early exit `if (!subtitles) return null` (`src/Composition.tsx:149-151`), which renders nothing until the subtitle text arrives, is not modelled: the model starts from the text already parsed.
- JSX, CSS, React state and effects are left out. `lineOffset` is computed as a value, not stored as state. The `renderSubtitleItem` callback and the React keys are not modelled.
- The plain `Subtitles` component renders the windowed list as it is. That list is `WindowedFrameSubs`, so the component has no model of its own.
- `<Sequence from={-audioOffsetInFrames}>` shifts the frame numbering. This belongs to the host framework: `Captions` takes the frame as the subtitles see it.
- `ValidProps` does not check the `zColor` format of the three color props (`titleColor`, `waveColor`, `subtitlesTextColor`). That check is an external library, so colors are plain strings.
- `CurrentLineIndex`: `l.includes(currentSubtitleItem)` compares objects by identity; the model compares entries by value. The two differ when a line holding a field-for-field copy of the current entry comes before the first line holding the entry itself, or when no line holds the entry itself and the first copy is not in line 0. The component never builds such lines, because both the lines and the current entry are the very objects of the windowed list, and `CurrentLineIsFirst` shows the index is 0 either way.
- `CaptionsShown`: as written, `AudiogramComposition` passes the subtitle text as a prop named `subtitles` (`src/Composition.tsx:191`) while `PaginatedSubtitles` reads `src` (`src/Subtitles.tsx:99`), so the component as written receives no subtitle text. `Captions` and `CaptionsShown` model the wiring the code evidently intends: the parsed entry list reaches the component.
- `NumberOfSamples`: `Number()` is modelled for strings of decimal digits only. Those are the only strings the schema admits.
- `DisplayedBars`: AudioViz's numeric props are taken as integers. The schema admits no other values.
- Composition registration (`src/Root.tsx`, `src/Video.tsx`, `src/PromoComposition.tsx`) and the render configuration (`remotion.config.ts`) are not modelled. `src/PromoComposition.tsx` passes props that `AudiogramComposition` does not declare. Only the registered default props appear, in `DefaultPropsDraw29Bars`.
