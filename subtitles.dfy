/** Subtitle windowing and pagination: which parsed SRT entries survive the
    frame window, which of them have started at the current frame, how they are
    grouped into lines, and which lines make up the visible page. */
module Subtitles {
  import opened JsArray

  /** An entry as produced by the SRT parser, with times in seconds. The parser
      also yields `id`, which the components use as a React key. */
  datatype ParsedItem = ParsedItem(id: int, start: real, end: real, text: string)

  /** The same entry after conversion, with times in frame numbers. */
  datatype SubtitleItem = SubtitleItem(id: int, start: int, end: int, text: string)

  // ---------------------------------------------------------------------------
  // useWindowedFrameSubs

  /** `Math.floor(seconds * fps)`: the frame in which a time falls. */
  function ToFrame(seconds: real, fps: real): int
  {
    (seconds * fps).Floor
  }

  /** `{...item, start, end}`: the item with both times replaced by frames,
      every other field copied. */
  function WithFrames(item: ParsedItem, fps: real): SubtitleItem
  {
    SubtitleItem(item.id, ToFrame(item.start, fps), ToFrame(item.end, fps), item.text)
  }

  /** A converted item keeps its id and text, and each of its times is the
      frame in which the original time in seconds falls. */
  lemma WithFramesSpec(item: ParsedItem, fps: real)
    ensures var r := WithFrames(item, fps);
            && r.id == item.id && r.text == item.text
            && r.start as real <= item.start * fps < r.start as real + 1.0
            && r.end as real <= item.end * fps < r.end as real + 1.0
  {
  }

  /** `item => WithFrames(item, fps)`. */
  function Converter(fps: real): ParsedItem -> SubtitleItem
  {
    (item: ParsedItem) => WithFrames(item, fps)
  }

  /** A frame lies in the window: `windowStart <= frame <= windowEnd`, where a
      missing bound stands for -Infinity or +Infinity. */
  predicate InWindow(frame: int, windowStart: Option<int>, windowEnd: Option<int>)
  {
    (windowStart.None? || windowStart.value <= frame)
    && (windowEnd.None? || frame <= windowEnd.value)
  }

  /** An item is kept when its START frame lies in the window. */
  function Keep(fps: real, windowStart: Option<int>, windowEnd: Option<int>): ParsedItem -> bool
  {
    (item: ParsedItem) => InWindow(ToFrame(item.start, fps), windowStart, windowEnd)
  }

  /** The reduce callback: drop the item when its start frame is before the
      window start or after the window end, else append it converted. */
  function WindowStep(fps: real, windowStart: Option<int>, windowEnd: Option<int>)
    : (seq<SubtitleItem>, ParsedItem) -> seq<SubtitleItem>
  {
    (acc: seq<SubtitleItem>, item: ParsedItem) =>
      var start := ToFrame(item.start, fps);
      if (windowStart.Some? && start < windowStart.value)
         || (windowEnd.Some? && start > windowEnd.value)
      then acc
      else acc + [WithFrames(item, fps)]
  }

  /** useWindowedFrameSubs on the already parsed items (the default bounds
      -Infinity and +Infinity are `None`). */
  function WindowedFrameSubs(items: seq<ParsedItem>, fps: real,
                             windowStart: Option<int>, windowEnd: Option<int>): seq<SubtitleItem>
  {
    Reduce(items, WindowStep(fps, windowStart, windowEnd), [])
  }

  /** The reduce keeps the items that lie in the window and converts them,
      in their original order. */
  lemma WindowedIsFilterMap(items: seq<ParsedItem>, fps: real,
                            windowStart: Option<int>, windowEnd: Option<int>)
    ensures WindowedFrameSubs(items, fps, windowStart, windowEnd)
            == Map(Filter(items, Keep(fps, windowStart, windowEnd)), Converter(fps))
  {
    var keep, convert := Keep(fps, windowStart, windowEnd), Converter(fps);
    var step := WindowStep(fps, windowStart, windowEnd);
    forall a, x ensures step(a, x) == a + Selecting(keep, convert)(x) {
    }
    ReduceAppending(items, step, Selecting(keep, convert), []);
    FlatMapSelecting(items, keep, convert);
  }

  /** useWindowedFrameSubs keeps exactly the items whose start frame lies in
      the window (the end frame is never examined), keeps them in their
      original order, and changes nothing in them but the two times. */
  lemma WindowedFrameSubsSpec(items: seq<ParsedItem>, fps: real,
                              windowStart: Option<int>, windowEnd: Option<int>)
    ensures var r := WindowedFrameSubs(items, fps, windowStart, windowEnd);
            var ks := FilterIndices(items, Keep(fps, windowStart, windowEnd));
            && |r| == |ks| <= |items|
            && (forall k :: 0 <= k < |ks| ==> ks[k] < |items| && r[k] == WithFrames(items[ks[k]], fps))
            && (forall a, b :: 0 <= a < b < |ks| ==> ks[a] < ks[b])
            && (forall j :: 0 <= j < |items| ==>
                  (j in ks <==> InWindow(ToFrame(items[j].start, fps), windowStart, windowEnd)))
  {
    WindowedIsFilterMap(items, fps, windowStart, windowEnd);
  }

  /** An entry is in the windowed list iff it is some parsed entry, converted,
      whose start frame lies in the window. */
  lemma WindowedMembership(items: seq<ParsedItem>, fps: real,
                           windowStart: Option<int>, windowEnd: Option<int>, x: SubtitleItem)
    ensures x in WindowedFrameSubs(items, fps, windowStart, windowEnd)
            <==> (exists j :: 0 <= j < |items| && x == WithFrames(items[j], fps))
                 && InWindow(x.start, windowStart, windowEnd)
  {
    var keep := Keep(fps, windowStart, windowEnd);
    var windowed := WindowedFrameSubs(items, fps, windowStart, windowEnd);
    var kept := Filter(items, keep);
    WindowedIsFilterMap(items, fps, windowStart, windowEnd);
    if x in windowed {
      var k :| 0 <= k < |windowed| && windowed[k] == x;
      FilterMembership(items, keep, kept[k]);
      var j :| 0 <= j < |items| && items[j] == kept[k];
      assert x == WithFrames(items[j], fps);
    }
    if (exists j :: 0 <= j < |items| && x == WithFrames(items[j], fps))
       && InWindow(x.start, windowStart, windowEnd) {
      var j :| 0 <= j < |items| && x == WithFrames(items[j], fps);
      assert keep(items[j]);
      FilterMembership(items, keep, items[j]);
      var k :| 0 <= k < |kept| && kept[k] == items[j];
      assert windowed[k] == x;
    }
  }

  /** With neither bound given, every parsed item is kept. */
  lemma UnboundedWindowKeepsAll(items: seq<ParsedItem>, fps: real)
    ensures var r := WindowedFrameSubs(items, fps, None, None);
            |r| == |items| && forall i :: 0 <= i < |items| ==> r[i] == WithFrames(items[i], fps)
  {
    WindowedIsFilterMap(items, fps, None, None);
    FilterAll(items, Keep(fps, None, None));
  }

  /** The end frame is not checked: an entry starting inside the window and
      ending after it is still kept. */
  lemma KeptItemMayEndPastWindow()
    ensures var r := WindowedFrameSubs([ParsedItem(1, 1.0, 5.0, "hi")], 10.0, Some(0), Some(20));
            r == [SubtitleItem(1, 10, 50, "hi")] && r[0].end > 20
  {
    var items := [ParsedItem(1, 1.0, 5.0, "hi")];
    assert ToFrame(1.0, 10.0) == 10;
    assert ToFrame(5.0, 10.0) == 50;
    assert items[1..] == [];
    assert WindowedFrameSubs(items, 10.0, Some(0), Some(20)) == Reduce([], WindowStep(10.0, Some(0), Some(20)), [SubtitleItem(1, 10, 50, "hi")]);
  }

  // ---------------------------------------------------------------------------
  // PaginatedSubtitles

  /** `item => item.start < frame`: the item has started at `frame`. */
  function StartedBefore(frame: int): SubtitleItem -> bool
  {
    (item: SubtitleItem) => item.start < frame
  }

  /** `subtitles.slice().reverse().find(item => item.start < frame)`. */
  function CurrentSubtitleItem(subtitles: seq<SubtitleItem>, frame: int): Option<SubtitleItem>
  {
    Find(Reverse(subtitles), StartedBefore(frame))
  }

  /** The current item is the LAST item in list order that has started, and
      is absent exactly when no item has started. */
  lemma CurrentIsLastStarted(subtitles: seq<SubtitleItem>, frame: int)
    ensures var c := CurrentSubtitleItem(subtitles, frame);
            && (c.None? <==> forall i :: 0 <= i < |subtitles| ==> subtitles[i].start >= frame)
            && (c.Some? ==> exists i :: 0 <= i < |subtitles| && subtitles[i] == c.value
                                        && subtitles[i].start < frame
                                        && forall j :: i < j < |subtitles| ==> subtitles[j].start >= frame)
  {
    var rev := Reverse(subtitles);
    var n := |subtitles|;
    var c := CurrentSubtitleItem(subtitles, frame);
    if c.None? {
      forall i | 0 <= i < n ensures subtitles[i].start >= frame {
        assert rev[n - 1 - i] == subtitles[i];
      }
    } else {
      var k :| 0 <= k < n && rev[k] == c.value && rev[k].start < frame
               && forall j :: 0 <= j < k ==> !(rev[j].start < frame);
      var i := n - 1 - k;
      assert subtitles[i] == c.value;
      forall j | i < j < n ensures subtitles[j].start >= frame {
        assert rev[n - 1 - j] == subtitles[j];
      }
    }
  }

  /** What the `lineSubs` loop builds: at most one line, holding every item
      that has started. */
  function GroupLines(subtitles: seq<SubtitleItem>, frame: int): seq<seq<SubtitleItem>>
  {
    var started := Filter(subtitles, StartedBefore(frame));
    if started == [] then [] else [started]
  }

  /** The `lineSubs` loop: each started item is appended to line `lineIndex`,
      which is always 0, so every started item lands in one line. */
  method LineSubs(subtitles: seq<SubtitleItem>, frame: int) returns (finalLines: seq<seq<SubtitleItem>>)
    ensures finalLines == GroupLines(subtitles, frame)
    ensures |finalLines| <= 1
    ensures forall l :: l in finalLines ==> l != [] && forall x :: x in l ==> x in subtitles && x.start < frame
  {
    finalLines := [];
    var lineIndex := 0;
    for i := 0 to |subtitles|
      invariant finalLines == GroupLines(subtitles[..i], frame)
    {
      assert subtitles[..i + 1][..i] == subtitles[..i];
      var subtitleItem := subtitles[i];
      assert Filter(subtitles[..i + 1], StartedBefore(frame))
          == Filter(subtitles[..i], StartedBefore(frame)) + if subtitleItem.start < frame then [subtitleItem] else [];
      if subtitleItem.start >= frame {
        assert Filter(subtitles[..i + 1], StartedBefore(frame)) == Filter(subtitles[..i], StartedBefore(frame));
        continue;
      }
      // `finalLines[lineIndex] ?? []`, then the assignment at `lineIndex`, which
      // extends the array when `lineIndex` is its length
      var line := if lineIndex < |finalLines| then finalLines[lineIndex] else [];
      if lineIndex < |finalLines| {
        finalLines := finalLines[lineIndex := line + [subtitleItem]];
      } else {
        finalLines := finalLines + [line + [subtitleItem]];
      }
    }
    assert subtitles[..|subtitles|] == subtitles;
    forall l, x | l in finalLines && x in l ensures x in subtitles && x.start < frame {
      FilterMembership(subtitles, StartedBefore(frame), x);
    }
  }

  /** The grouping has at most one line; it is absent exactly when no item
      has started, and otherwise holds exactly the started items in their
      original order. */
  lemma GroupLinesSpec(subtitles: seq<SubtitleItem>, frame: int)
    ensures var lines := GroupLines(subtitles, frame);
            var ks := FilterIndices(subtitles, StartedBefore(frame));
            && |lines| <= 1
            && (lines == [] <==> forall i :: 0 <= i < |subtitles| ==> subtitles[i].start >= frame)
            && (lines != [] ==>
                  && |lines[0]| == |ks|
                  && (forall k :: 0 <= k < |ks| ==> ks[k] < |subtitles| && lines[0][k] == subtitles[ks[k]])
                  && (forall a, b :: 0 <= a < b < |ks| ==> ks[a] < ks[b])
                  && (forall j :: 0 <= j < |subtitles| ==> (j in ks <==> subtitles[j].start < frame)))
  {
    var p := StartedBefore(frame);
    var started := Filter(subtitles, p);
    if forall i :: 0 <= i < |subtitles| ==> subtitles[i].start >= frame {
      FilterNone(subtitles, p);
    } else {
      var i :| 0 <= i < |subtitles| && subtitles[i].start < frame;
      FilterMembership(subtitles, p, subtitles[i]);
    }
  }

  /** `l => l.includes(currentSubtitleItem)`: the line holds the current item. */
  function HoldsItem(current: Option<SubtitleItem>): seq<SubtitleItem> -> bool
  {
    (l: seq<SubtitleItem>) => current.Some? && current.value in l
  }

  /** `Math.max(0, lineSubs.findIndex(...))`: the first line holding the
      current item, falling back to 0 when none does. */
  function CurrentLineIndex(lines: seq<seq<SubtitleItem>>, current: Option<SubtitleItem>): (r: nat)
    ensures r == 0 || r < |lines|
    ensures (exists i :: 0 <= i < |lines| && HoldsItem(current)(lines[i]))
            ==> r < |lines| && HoldsItem(current)(lines[r])
                && forall i :: 0 <= i < r ==> !HoldsItem(current)(lines[i])
    ensures (forall i :: 0 <= i < |lines| ==> !HoldsItem(current)(lines[i])) ==> r == 0
  {
    Max(0, FindIndex(lines, HoldsItem(current)))
  }

  /** In the component the current line is always line 0, and when there is
      a current item that line really holds it (the fallback is not needed). */
  lemma CurrentLineIsFirst(subtitles: seq<SubtitleItem>, frame: int)
    ensures var lines := GroupLines(subtitles, frame);
            var current := CurrentSubtitleItem(subtitles, frame);
            && CurrentLineIndex(lines, current) == 0
            && (current.Some? ==> |lines| == 1 && current.value in lines[0])
  {
    var lines := GroupLines(subtitles, frame);
    var current := CurrentSubtitleItem(subtitles, frame);
    GroupLinesSpec(subtitles, frame);
    CurrentIsLastStarted(subtitles, frame);
    if current.Some? {
      var i :| 0 <= i < |subtitles| && subtitles[i] == current.value && subtitles[i].start < frame;
      FilterMembership(subtitles, StartedBefore(frame), subtitles[i]);
    }
  }

  /** `Math.max(0, currentLineIndex - (linesPerPage - 1))`: the first line of
      the page, chosen so that the current line is the page's last line when
      there are enough lines above it. */
  function StartLine(currentLineIndex: int, linesPerPage: int): (r: int)
    ensures r >= 0
    ensures linesPerPage >= 1 && currentLineIndex >= 0 ==> r <= currentLineIndex < r + linesPerPage
    ensures r >= currentLineIndex - (linesPerPage - 1)
    ensures r == 0 || r + linesPerPage - 1 == currentLineIndex
  {
    Max(0, currentLineIndex - (linesPerPage - 1))
  }

  /** `lineSubs.slice(startLine, startLine + linesPerPage).reduce(...)`:
      the items of the page, line after line. */
  function Page(lines: seq<seq<SubtitleItem>>, startLine: int, linesPerPage: int): seq<SubtitleItem>
  {
    Reduce(Slice(lines, startLine, startLine + linesPerPage), Append(), [])
  }

  /** The page is the concatenation, in order, of at most `linesPerPage`
      consecutive lines beginning at `startLine`. */
  lemma PageSpec(lines: seq<seq<SubtitleItem>>, startLine: int, linesPerPage: int)
    requires startLine >= 0 && linesPerPage >= 0
    ensures var from := Min(startLine, |lines|);
            var to := Min(startLine + linesPerPage, |lines|);
            && from <= to && to - from <= linesPerPage
            && Page(lines, startLine, linesPerPage) == Concat(lines[from..to])
  {
    FlattenIsConcat([], Slice(lines, startLine, startLine + linesPerPage));
  }

  /** The items PaginatedSubtitles renders at `frame`. */
  function DisplayedItems(subtitles: seq<SubtitleItem>, frame: int, linesPerPage: int): seq<SubtitleItem>
  {
    var lines := GroupLines(subtitles, frame);
    var currentLine := CurrentLineIndex(lines, CurrentSubtitleItem(subtitles, frame));
    Page(lines, StartLine(currentLine, linesPerPage), linesPerPage)
  }

  /** With at least one line per page, the component shows exactly the items
      that have started, in their original order; with `linesPerPage <= 0` the
      first line lies past the single line and nothing is shown. */
  lemma DisplayedItemsAreStarted(subtitles: seq<SubtitleItem>, frame: int, linesPerPage: int)
    ensures DisplayedItems(subtitles, frame, linesPerPage)
            == if linesPerPage >= 1 then Filter(subtitles, StartedBefore(frame)) else []
  {
    var lines := GroupLines(subtitles, frame);
    var started := Filter(subtitles, StartedBefore(frame));
    CurrentLineIsFirst(subtitles, frame);
    var startLine := StartLine(0, linesPerPage);
    var slice := Slice(lines, startLine, startLine + linesPerPage);
    FlattenIsConcat([], slice);
    if linesPerPage >= 1 {
      assert startLine == 0;
      if lines == [] {
        assert slice == [];
      } else {
        assert slice == [started];
        assert Concat(slice) == started + Concat([]);
      }
    } else {
      assert startLine >= 1 >= |lines|;
      assert slice == [];
    }
  }

  /** `Math.max(0, linesRendered - linesPerPage)`: how many lines to scroll
      up, never negative and just enough to bring the rendered lines within
      one page. */
  function LineOffset(linesRendered: real, linesPerPage: int): (r: real)
    ensures r >= 0.0
    ensures r >= linesRendered - linesPerPage as real
    ensures r == 0.0 || r == linesRendered - linesPerPage as real
  {
    var excess := linesRendered - linesPerPage as real;
    if excess < 0.0 then 0.0 else excess
  }
}
