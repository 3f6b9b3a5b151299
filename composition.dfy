/** The audiogram composition: the waveform bars AudioViz draws from one
    frame's frequency data, the schema its props must satisfy, and the frame
    window it hands to the paginated subtitles. */
module Composition {
  import opened JsArray
  import Subtitles

  // ---------------------------------------------------------------------------
  // AudioViz

  /** Math.round. */
  function JsRound(x: real): int
  {
    (x + 0.5).Floor
  }

  /** Math.round gives the integer within half a unit, halves rounded up. */
  lemma JsRoundIsNearest(x: real)
    ensures JsRound(x) as real - 0.5 <= x < JsRound(x) as real + 0.5
  {
  }

  /** `Math.round(n / 2)` on an integer is `n / 2` rounded up. */
  lemma RoundHalf(n: int)
    ensures JsRound(n as real / 2.0) == (n + 1) / 2
  {
    var q := (n + 1) / 2;
    var m := (n + 1) % 2;
    assert n + 1 == 2 * q + m && 0 <= m <= 1;
    var x := n as real / 2.0 + 0.5;
    assert x == q as real + m as real / 2.0;
    assert q as real <= x < q as real + 1.0;
  }

  /** How many frequency values AudioViz takes: half of the bars (rounded)
      when the wave is mirrored, all of them otherwise. */
  function SubsetLength(waveLinesToDisplay: int, mirrorWave: bool): int
  {
    if mirrorWave then JsRound(waveLinesToDisplay as real / 2.0) else waveLinesToDisplay
  }

  /** `[...subset.slice(1).reverse(), ...subset]`. */
  function Mirror<T>(subset: seq<T>): seq<T>
  {
    Reverse(Slice(subset, 1, |subset|)) + subset
  }

  /** The bars AudioViz draws, one per element, from the frequency data. */
  function DisplayedBars<T>(frequencyData: seq<T>, freqRangeStartIndex: int,
                            waveLinesToDisplay: int, mirrorWave: bool): seq<T>
  {
    var subset := Slice(frequencyData, freqRangeStartIndex,
                        freqRangeStartIndex + SubsetLength(waveLinesToDisplay, mirrorWave));
    if mirrorWave then Mirror(subset) else subset
  }

  /** The mirrored wave has 2k-1 bars for a subset of k > 0 values (the first
      value is not repeated), reads the same backwards, and ends with the
      subset itself. */
  lemma MirrorShape<T>(subset: seq<T>)
    ensures var m := Mirror(subset);
            && |m| == (if subset == [] then 0 else 2 * |subset| - 1)
            && (forall i :: 0 <= i < |m| ==> m[i] == m[|m| - 1 - i])
            && |subset| <= |m| && m[|m| - |subset|..] == subset
  {
    var m := Mirror(subset);
    var k := |subset|;
    if k > 0 {
      forall i | 0 <= i < |m| ensures m[i] == m[|m| - 1 - i] {
        MirrorAt(subset, i);
        MirrorAt(subset, |m| - 1 - i);
      }
      assert m[|m| - k..] == subset;
    }
  }

  /** Position `i` of the mirrored wave shows the subset value at distance
      `|i - (k - 1)|` from the first one. */
  lemma MirrorAt<T>(subset: seq<T>, i: int)
    requires subset != [] && 0 <= i < 2 * |subset| - 1
    ensures |Mirror(subset)| == 2 * |subset| - 1
    ensures Mirror(subset)[i] == subset[if i < |subset| - 1 then |subset| - 1 - i else i - (|subset| - 1)]
  {
    var k := |subset|;
    var tail := Slice(subset, 1, k);
    assert tail == subset[1..];
    if i < k - 1 {
      assert Mirror(subset)[i] == Reverse(tail)[i] == tail[k - 2 - i];
    }
  }

  /** Without mirroring, the bars are the values from `freqRangeStartIndex`
      on, at most `waveLinesToDisplay` of them, cut off at the end of the data. */
  lemma UnmirroredBarsAreWindow<T>(frequencyData: seq<T>, freqRangeStartIndex: int, waveLinesToDisplay: int)
    requires freqRangeStartIndex >= 0 && waveLinesToDisplay >= 0
    ensures DisplayedBars(frequencyData, freqRangeStartIndex, waveLinesToDisplay, false)
            == frequencyData[Min(freqRangeStartIndex, |frequencyData|)
                             ..Min(freqRangeStartIndex + waveLinesToDisplay, |frequencyData|)]
  {
  }

  /** Mirrored, the bars are the reflected subset of `(n + 1) / 2` values from
      `freqRangeStartIndex` on. */
  lemma MirroredBarsAreReflectedWindow<T>(frequencyData: seq<T>, freqRangeStartIndex: int, waveLinesToDisplay: int)
    requires freqRangeStartIndex >= 0 && waveLinesToDisplay >= 0
    ensures var subset := frequencyData[Min(freqRangeStartIndex, |frequencyData|)
                                        ..Min(freqRangeStartIndex + (waveLinesToDisplay + 1) / 2, |frequencyData|)];
            DisplayedBars(frequencyData, freqRangeStartIndex, waveLinesToDisplay, true) == Mirror(subset)
  {
    RoundHalf(waveLinesToDisplay);
  }

  /** AudioViz never draws more than `waveLinesToDisplay` bars. When the data
      is long enough it draws exactly that many, except that a mirrored wave
      of an even count has one bar less. */
  lemma BarCount<T>(frequencyData: seq<T>, freqRangeStartIndex: int, waveLinesToDisplay: int, mirrorWave: bool)
    requires freqRangeStartIndex >= 0 && waveLinesToDisplay >= 0
    ensures var bars := DisplayedBars(frequencyData, freqRangeStartIndex, waveLinesToDisplay, mirrorWave);
            && |bars| <= waveLinesToDisplay
            && (!mirrorWave && freqRangeStartIndex + waveLinesToDisplay <= |frequencyData|
                ==> |bars| == waveLinesToDisplay)
            && (mirrorWave && freqRangeStartIndex + (waveLinesToDisplay + 1) / 2 <= |frequencyData|
                ==> |bars| == if waveLinesToDisplay % 2 == 1 then waveLinesToDisplay
                              else Max(0, waveLinesToDisplay - 1))
  {
    if mirrorWave {
      MirroredBarCount(frequencyData, freqRangeStartIndex, waveLinesToDisplay);
    } else {
      UnmirroredBarsAreWindow(frequencyData, freqRangeStartIndex, waveLinesToDisplay);
    }
  }

  /** How many bars the mirrored wave draws for `waveLinesToDisplay` lines. */
  lemma MirroredBarCount<T>(frequencyData: seq<T>, freqRangeStartIndex: int, waveLinesToDisplay: int)
    requires freqRangeStartIndex >= 0 && waveLinesToDisplay >= 0
    ensures var bars := DisplayedBars(frequencyData, freqRangeStartIndex, waveLinesToDisplay, true);
            && |bars| <= waveLinesToDisplay
            && (freqRangeStartIndex + (waveLinesToDisplay + 1) / 2 <= |frequencyData|
                ==> |bars| == if waveLinesToDisplay % 2 == 1 then waveLinesToDisplay
                              else Max(0, waveLinesToDisplay - 1))
  {
    var n := waveLinesToDisplay;
    var subset := frequencyData[Min(freqRangeStartIndex, |frequencyData|)
                                ..Min(freqRangeStartIndex + (n + 1) / 2, |frequencyData|)];
    MirroredBarsAreReflectedWindow(frequencyData, freqRangeStartIndex, n);
    MirrorShape(subset);
    HalfCount(n, |subset|);
  }

  /** The arithmetic of the mirrored count: `k <= (n + 1) / 2` values give at
      most `n` bars, and exactly `n` or `n - 1` of them when `k` is that bound. */
  lemma HalfCount(n: nat, k: nat)
    requires k <= (n + 1) / 2
    ensures (if k == 0 then 0 else 2 * k - 1) <= n
    ensures k == (n + 1) / 2 ==> (if k == 0 then 0 else 2 * k - 1)
                                 == if n % 2 == 1 then n else Max(0, n - 1)
  {
  }

  /** A start index at or past the end of the data leaves no bars, mirrored
      or not. */
  lemma NoBarsPastEnd<T>(frequencyData: seq<T>, freqRangeStartIndex: int, waveLinesToDisplay: int, mirrorWave: bool)
    ensures freqRangeStartIndex >= |frequencyData|
            ==> DisplayedBars(frequencyData, freqRangeStartIndex, waveLinesToDisplay, mirrorWave) == []
  {
    if mirrorWave {
      var subset := Slice(frequencyData, freqRangeStartIndex,
                          freqRangeStartIndex + SubsetLength(waveLinesToDisplay, mirrorWave));
      MirrorShape(subset);
    }
  }

  // ---------------------------------------------------------------------------
  // AudioGramSchema

  /** The props of the composition. Numbers are JavaScript numbers, so they
      are reals here; colors are strings. */
  datatype AudiogramProps = AudiogramProps(
    subtitlesFileName: string,
    audioFileName: string,
    coverImgFileName: string,
    titleText: string,
    titleColor: string,
    waveColor: string,
    audioOffsetInFrames: real,
    subtitlesTextColor: string,
    subtitlesLinePerPage: real,
    subtitlesLineHeight: real,
    subtitlesZoomMeasurerSize: real,
    onlyDisplayCurrentSentence: bool,
    mirrorWave: bool,
    waveLinesToDisplay: real,
    waveFreqRangeStartIndex: real,
    waveNumberOfSamples: string)

  /** `z.number().int().min(0)`. */
  predicate IsNonNegativeInt(x: real)
  {
    0.0 <= x && x.Floor as real == x
  }

  /** The values `z.enum` allows for `waveNumberOfSamples`. */
  const SampleCountChoices: seq<string> := ["32", "64", "128", "256", "512"]

  /** A prop set the schema accepts. */
  predicate ValidProps(p: AudiogramProps)
  {
    && IsNonNegativeInt(p.audioOffsetInFrames)
    && IsNonNegativeInt(p.subtitlesLinePerPage)
    && IsNonNegativeInt(p.subtitlesLineHeight)
    && IsNonNegativeInt(p.subtitlesZoomMeasurerSize)
    && IsNonNegativeInt(p.waveLinesToDisplay)
    && IsNonNegativeInt(p.waveFreqRangeStartIndex)
    && p.waveNumberOfSamples in SampleCountChoices
  }

  predicate IsDigits(s: string)
  {
    forall i :: 0 <= i < |s| ==> '0' <= s[i] <= '9'
  }

  /** `Number(s)` for a string of decimal digits (the empty string gives 0). */
  function DecimalValue(s: string): nat
    requires IsDigits(s)
  {
    if s == [] then 0
    else DecimalValue(s[..|s| - 1]) * 10 + (s[|s| - 1] as int - '0' as int)
  }

  /** The value of a two- or three-digit string, digit by digit. */
  lemma DecimalValueShort(s: string)
    requires IsDigits(s) && 2 <= |s| <= 3
    ensures |s| == 2 ==> DecimalValue(s) == (s[0] as int - '0' as int) * 10 + (s[1] as int - '0' as int)
    ensures |s| == 3 ==> DecimalValue(s) == (s[0] as int - '0' as int) * 100
                                            + (s[1] as int - '0' as int) * 10 + (s[2] as int - '0' as int)
  {
    var n := |s|;
    assert s[..n - 1][..n - 2] == s[..n - 2];
    if n == 3 {
      assert s[..1][..0] == [];
    } else {
      assert s[..0] == [];
    }
  }

  /** `Number(waveNumberOfSamples)`: for a valid prop set, the sample count
      the chosen enum string spells. */
  function NumberOfSamples(p: AudiogramProps): (r: nat)
    requires ValidProps(p)
    ensures p.waveNumberOfSamples == "32" ==> r == 32
    ensures p.waveNumberOfSamples == "64" ==> r == 64
    ensures p.waveNumberOfSamples == "128" ==> r == 128
    ensures p.waveNumberOfSamples == "256" ==> r == 256
    ensures p.waveNumberOfSamples == "512" ==> r == 512
  {
    var s := p.waveNumberOfSamples;
    DecimalValueShort(s);
    DecimalValue(s)
  }

  /** The bars AudioViz draws for a valid prop set. */
  function VizBars<T>(p: AudiogramProps, frequencyData: seq<T>): (bars: seq<T>)
    requires ValidProps(p)
    ensures |bars| as real <= p.waveLinesToDisplay
    ensures p.waveFreqRangeStartIndex >= |frequencyData| as real ==> bars == []
  {
    var start, lines := p.waveFreqRangeStartIndex.Floor, p.waveLinesToDisplay.Floor;
    BarCount(frequencyData, start, lines, p.mirrorWave);
    NoBarsPastEnd(frequencyData, start, lines, p.mirrorWave);
    DisplayedBars(frequencyData, start, lines, p.mirrorWave)
  }

  /** The default props the composition is registered with. */
  const DefaultProps := AudiogramProps(
    "subtitles.srt", "audio.mp3", "cover.jpg",
    "#234 \U{2013} Money, Kids, and Choosing Your Market with Justin Jackson of Transistor.fm",
    "rgba(186, 186, 186, 0.93)", "#a3a5ae", 207.0, "rgba(255, 255, 255, 0.93)",
    4.0, 98.0, 10.0, true, true, 29.0, 7.0, "256")

  /** The defaults satisfy the schema, ask for 256 samples, and draw a
      mirrored wave of all 29 bars once the data reaches index 21. */
  lemma DefaultPropsDraw29Bars<T>(frequencyData: seq<T>)
    requires |frequencyData| >= 22
    ensures ValidProps(DefaultProps) && NumberOfSamples(DefaultProps) == 256
    ensures |VizBars(DefaultProps, frequencyData)| == 29
  {
    DecimalValueShort("256");
    BarCount(frequencyData, 7, 29, true);
  }

  // ---------------------------------------------------------------------------
  // The subtitles of AudiogramComposition

  /** `startFrame={audioOffsetInFrames}`. */
  function SubtitlesStartFrame(p: AudiogramProps): Option<int>
  {
    Some(p.audioOffsetInFrames.Floor)
  }

  /** `endFrame={audioOffsetInFrames + durationInFrames}`. */
  function SubtitlesEndFrame(p: AudiogramProps, durationInFrames: int): Option<int>
  {
    Some(p.audioOffsetInFrames.Floor + durationInFrames)
  }

  /** The subtitle entries the composition keeps are exactly those starting
      within `[audioOffsetInFrames, audioOffsetInFrames + durationInFrames]`. */
  lemma SubtitleWindowSpec(p: AudiogramProps, durationInFrames: int, items: seq<Subtitles.ParsedItem>, fps: real)
    requires ValidProps(p)
    ensures var ks := FilterIndices(items, Subtitles.Keep(fps, SubtitlesStartFrame(p), SubtitlesEndFrame(p, durationInFrames)));
            forall j :: 0 <= j < |items| ==>
              (j in ks <==> p.audioOffsetInFrames <= Subtitles.ToFrame(items[j].start, fps) as real
                                                  <= p.audioOffsetInFrames + durationInFrames as real)
  {
  }

  /** The captions AudiogramComposition shows at subtitle frame `frame`. */
  function Captions(p: AudiogramProps, durationInFrames: int, items: seq<Subtitles.ParsedItem>,
                    fps: real, frame: int): seq<Subtitles.SubtitleItem>
    requires ValidProps(p)
  {
    var windowed := Subtitles.WindowedFrameSubs(items, fps, SubtitlesStartFrame(p),
                                                SubtitlesEndFrame(p, durationInFrames));
    Subtitles.DisplayedItems(windowed, frame, p.subtitlesLinePerPage.Floor)
  }

  /** With at least one line per page, a caption is shown exactly when it is
      a parsed entry, converted to frames, that starts inside the audio window
      and before the current frame; with zero lines per page none is shown. */
  lemma CaptionsShown(p: AudiogramProps, durationInFrames: int, items: seq<Subtitles.ParsedItem>,
                      fps: real, frame: int, x: Subtitles.SubtitleItem)
    requires ValidProps(p)
    ensures p.subtitlesLinePerPage == 0.0 ==> Captions(p, durationInFrames, items, fps, frame) == []
    ensures p.subtitlesLinePerPage >= 1.0 ==>
              (x in Captions(p, durationInFrames, items, fps, frame)
               <==> (exists j :: 0 <= j < |items| && x == Subtitles.WithFrames(items[j], fps))
                    && p.audioOffsetInFrames <= x.start as real <= p.audioOffsetInFrames + durationInFrames as real
                    && x.start < frame)
  {
    var ws, we := SubtitlesStartFrame(p), SubtitlesEndFrame(p, durationInFrames);
    var windowed := Subtitles.WindowedFrameSubs(items, fps, ws, we);
    Subtitles.DisplayedItemsAreStarted(windowed, frame, p.subtitlesLinePerPage.Floor);
    if p.subtitlesLinePerPage >= 1.0 {
      FilterMembership(windowed, Subtitles.StartedBefore(frame), x);
      Subtitles.WindowedMembership(items, fps, ws, we, x);
    }
  }
}
