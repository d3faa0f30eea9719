/**
 * The fullscreen viewport: a frame of exactly the screen's height made of a pinned header, a window
 * on the transcript and a pinned dock, with scroll position as application state.
 */
module Viewport {
  import opened Wrappers

  const FULLSCREEN_MIN_TRANSCRIPT_ROWS := 3
  const IMAGE_PLACEHOLDER := "\U{1b}[2m[image \U{2014} view in inline mode]\U{1b}[0m"

  function Max(a: int, b: int): int {
    if a > b then a else b
  }

  function Min(a: int, b: int): int {
    if a < b then a else b
  }

  function ClippedFullscreenDockHeight(dockLength: nat, height: int): nat {
    Min(dockLength, Max(0, height - FULLSCREEN_MIN_TRANSCRIPT_ROWS))
  }

  function MaxScroll(transcriptLength: nat, windowHeight: int): nat {
    Max(0, transcriptLength - windowHeight)
  }

  lemma ThreeParts(a: seq<string>, b: seq<string>, c: seq<string>)
    ensures (a + b + c)[..|a|] == a && (a + b + c)[|a|..|a| + |b|] == b && (a + b + c)[|a| + |b|..] == c
  {}

  /** The bottom rows of a block that is too tall. */
  function BottomRows(block: seq<string>, height: nat): (rows: seq<string>)
    requires height <= |block|
    ensures |rows| == height
  {
    block[|block| - height..]
  }

  /** How a transcript line is drawn: images by a placeholder, then the selection's highlight. */
  datatype Style = Style(isImageLine: string -> bool, highlight: (nat, string) -> string)

  function Drawn(style: Style, line: nat, text: string): string {
    style.highlight(line, if style.isImageLine(text) then IMAGE_PLACEHOLDER else text)
  }

  lemma DrawnExactly(style: Style, line: nat, text: string)
    ensures style.isImageLine(text) ==> Drawn(style, line, text) == style.highlight(line, IMAGE_PLACEHOLDER)
    ensures !style.isImageLine(text) ==> Drawn(style, line, text) == style.highlight(line, text)
  {}

  /** The window on the transcript from a scroll position, padded with blank rows. */
  function Window(style: Style, transcript: seq<string>, scrollTop: nat, windowHeight: nat): (rows: seq<string>)
    ensures |rows| == windowHeight
  {
    seq(windowHeight, i requires 0 <= i < windowHeight =>
      if scrollTop + i < |transcript| then Drawn(style, scrollTop + i, transcript[scrollTop + i]) else "")
  }

  /** A paused window that is full shows the same lines after any append: its scroll position need not move. */
  lemma PausedWindowIsStable(style: Style, transcript: seq<string>, appended: seq<string>, scrollTop: nat,
                             windowHeight: nat)
    requires scrollTop + windowHeight <= |transcript|
    ensures Min(scrollTop, MaxScroll(|transcript + appended|, windowHeight)) == scrollTop
    ensures Window(style, transcript + appended, scrollTop, windowHeight) ==
            Window(style, transcript, scrollTop, windowHeight)
  {
    var before := Window(style, transcript, scrollTop, windowHeight);
    var after := Window(style, transcript + appended, scrollTop, windowHeight);
    forall i | 0 <= i < windowHeight ensures after[i] == before[i] {
      assert (transcript + appended)[scrollTop + i] == transcript[scrollTop + i];
    }
  }

  /** A following window ends with the transcript: its last line on the last row, or blanks below a short one. */
  lemma FollowingWindowShowsTheEnd(style: Style, transcript: seq<string>, windowHeight: nat)
    requires transcript != [] && windowHeight > 0
    ensures var scrollTop := MaxScroll(|transcript|, windowHeight);
            var last := |transcript| - 1;
            && scrollTop <= last < scrollTop + windowHeight
            && Window(style, transcript, scrollTop, windowHeight)[last - scrollTop] ==
               Drawn(style, last, transcript[last])
            && forall i | last - scrollTop < i < windowHeight ::
               Window(style, transcript, scrollTop, windowHeight)[i] == ""
  {}

  // ---------------------------------------------------------------- projected regions

  datatype ProjectedRegionRows = ProjectedRegionRows(anchor: int, from: int, count: nat)

  predicate OnRow(rows: Option<ProjectedRegionRows>, row: int) {
    rows.Some? && rows.value.from <= row < rows.value.from + rows.value.count
  }

  /**
   * Rows [line, line+height), at least one of them, moved by `shift` and cut to the frame rows
   * [firstFrameRow, firstFrameRow+frameRowCount).
   */
  function ProjectRows(line: int, height: int, firstFrameRow: int, frameRowCount: int, shift: int)
    : (rows: Option<ProjectedRegionRows>)
    ensures rows.Some? ==> rows.value.anchor == line + shift && rows.value.count > 0
    ensures forall row: int ::
              OnRow(rows, row)
              <==> (firstFrameRow <= row < firstFrameRow + frameRowCount
                    && line <= row - shift < line + Max(1, height))
  {
    var anchor := line + shift;
    var from := Max(anchor, firstFrameRow);
    var end := Min(anchor + Max(1, height), firstFrameRow + frameRowCount);
    if end > from then Some(ProjectedRegionRows(anchor, from, end - from)) else None
  }

  // ---------------------------------------------------------------- click targets

  datatype ClickRegion = ClickRegion(id: nat, col: int, width: int)

  datatype FrameClickTarget = FrameClickTarget(row: int, col: int, width: int, anchor: int, region: ClickRegion)

  datatype FrameClickEntry = FrameClickEntry(region: ClickRegion, rows: ProjectedRegionRows)

  predicate Covers(t: FrameClickTarget, row: int, col: int) {
    t.row == row && t.col <= col < t.col + t.width
  }

  /** Index of the first target covering a position; the number of targets when there is none. */
  function FirstHit(targets: seq<FrameClickTarget>, row: int, col: int): (k: nat)
    ensures k <= |targets|
    ensures k < |targets| ==> Covers(targets[k], row, col)
    ensures forall i | 0 <= i < k :: !Covers(targets[i], row, col)
  {
    if targets == [] || Covers(targets[0], row, col) then 0 else 1 + FirstHit(targets[1..], row, col)
  }

  /** What is clicked at a position: a region and the frame row its positions count from. */
  function HitAt(targets: seq<FrameClickTarget>, row: int, col: int): Option<(ClickRegion, int)> {
    var k := FirstHit(targets, row, col);
    if k < |targets| then Some((targets[k].region, targets[k].anchor)) else None
  }

  /** What is left of a target when columns [startCol, endCol) of a row are painted over. */
  function Fragments(t: FrameClickTarget, line: int, startCol: int, endCol: int): seq<FrameClickTarget> {
    var targetEnd := t.col + t.width;
    if t.row != line || endCol <= t.col || startCol >= targetEnd then [t]
    else
      (if t.col < startCol then [t.(width := startCol - t.col)] else [])
      + (if endCol < targetEnd then [t.(col := endCol, width := targetEnd - endCol)] else [])
  }

  function Subtracted(targets: seq<FrameClickTarget>, line: int, startCol: int, endCol: int): seq<FrameClickTarget> {
    if targets == [] then []
    else Fragments(targets[0], line, startCol, endCol) + Subtracted(targets[1..], line, startCol, endCol)
  }

  lemma SubtractedFrom(targets: seq<FrameClickTarget>, i: nat, line: int, startCol: int, endCol: int)
    requires i < |targets|
    ensures Subtracted(targets[i..], line, startCol, endCol)
         == Fragments(targets[i], line, startCol, endCol) + Subtracted(targets[i + 1..], line, startCol, endCol)
  {
    assert targets[i..][1..] == targets[i + 1..];
  }

  lemma {:induction false} HitInConcatenation(a: seq<FrameClickTarget>, b: seq<FrameClickTarget>, row: int, col: int)
    ensures HitAt(a + b, row, col) == if HitAt(a, row, col).Some? then HitAt(a, row, col) else HitAt(b, row, col)
  {
    if a == [] {
      assert a + b == b;
    } else {
      assert (a + b)[0] == a[0] && (a + b)[1..] == a[1..] + b;
      HitInConcatenation(a[1..], b, row, col);
    }
  }

  lemma FragmentsHit(t: FrameClickTarget, line: int, startCol: int, endCol: int, row: int, col: int)
    ensures HitAt(Fragments(t, line, startCol, endCol), row, col)
         == if row == line && startCol <= col < endCol then None else HitAt([t], row, col)
  {
    var fragments := Fragments(t, line, startCol, endCol);
    if |fragments| == 2 {
      assert fragments == [fragments[0]] + [fragments[1]];
      HitInConcatenation([fragments[0]], [fragments[1]], row, col);
    }
    assert forall f <- fragments :: f.region == t.region && f.anchor == t.anchor;
  }

  /**
   * Painting over a span is exact subtraction: nothing is clickable inside it, and every other
   * position hits what it hit before, overlapping targets in their old order.
   */
  lemma {:induction false} SubtractionIsExact(targets: seq<FrameClickTarget>, line: int, startCol: int, endCol: int,
                                              row: int, col: int)
    ensures HitAt(Subtracted(targets, line, startCol, endCol), row, col)
         == if row == line && startCol <= col < endCol then None else HitAt(targets, row, col)
  {
    if targets != [] {
      var rest := Subtracted(targets[1..], line, startCol, endCol);
      SubtractionIsExact(targets[1..], line, startCol, endCol, row, col);
      FragmentsHit(targets[0], line, startCol, endCol, row, col);
      HitInConcatenation(Fragments(targets[0], line, startCol, endCol), rest, row, col);
      assert targets == [targets[0]] + targets[1..];
      HitInConcatenation([targets[0]], targets[1..], row, col);
    }
  }

  /** The targets of one entry: one per visible row, top to bottom. */
  function EntryTargets(entry: FrameClickEntry): (targets: seq<FrameClickTarget>)
    ensures |targets| == entry.rows.count
  {
    seq(entry.rows.count, i requires 0 <= i < entry.rows.count =>
      FrameClickTarget(entry.rows.from + i, entry.region.col, entry.region.width, entry.rows.anchor, entry.region))
  }

  function AllTargets(entries: seq<FrameClickEntry>): seq<FrameClickTarget> {
    if entries == [] then [] else AllTargets(entries[..|entries| - 1]) + EntryTargets(entries[|entries| - 1])
  }

  /** An entry is hit exactly inside its visible rectangle. */
  lemma EntryHit(entry: FrameClickEntry, row: int, col: int)
    ensures HitAt(EntryTargets(entry), row, col).Some?
            <==> (entry.rows.from <= row < entry.rows.from + entry.rows.count
                  && entry.region.col <= col < entry.region.col + entry.region.width)
    ensures HitAt(EntryTargets(entry), row, col).Some? ==>
              HitAt(EntryTargets(entry), row, col).value == (entry.region, entry.rows.anchor)
  {
    var targets := EntryTargets(entry);
    if entry.rows.from <= row < entry.rows.from + entry.rows.count
       && entry.region.col <= col < entry.region.col + entry.region.width {
      assert Covers(targets[row - entry.rows.from], row, col);
    }
  }

  class FullscreenViewport {
    const style: Style
    var scrollTop: nat
    var following: bool
    var lastMaxScroll: nat
    var lastWindowHeight: nat
    var lastHeaderHeight: nat
    var lastHeaderLines: nat
    var lastDockLines: nat
    var lastDockHeight: nat
    var lastFrameVisibleStart: nat
    var lastFrameVisibleHeight: nat
    var frameClickTargets: seq<FrameClickTarget>

    /** The scroll position is in range, and following means sitting at the end. */
    predicate Valid()
      reads this
    {
      && scrollTop <= lastMaxScroll
      && (following ==> scrollTop == lastMaxScroll)
      && lastHeaderHeight <= lastHeaderLines && lastDockHeight <= lastDockLines
    }

    constructor (style: Style)
      ensures Valid() && following && this.style == style && frameClickTargets == []
    {
      this.style := style;
      scrollTop, following, lastMaxScroll, lastWindowHeight := 0, true, 0, 0;
      lastHeaderHeight, lastHeaderLines, lastDockLines, lastDockHeight := 0, 0, 0, 0;
      lastFrameVisibleStart, lastFrameVisibleHeight := 0, 0;
      frameClickTargets := [];
    }

    /** The last composed frame had this geometry and this content. */
    ghost predicate Composed(transcript: seq<string>, dock: seq<string>, header: seq<string>, frame: seq<string>)
      reads this
    {
      && |frame| == lastHeaderHeight + lastWindowHeight + lastDockHeight
      && lastHeaderLines == |header| && lastDockLines == |dock|
      && lastHeaderHeight <= |header| && lastDockHeight <= |dock|
      && frame[..lastHeaderHeight] == BottomRows(header, lastHeaderHeight)
      && frame[lastHeaderHeight..lastHeaderHeight + lastWindowHeight]
         == Window(style, transcript, scrollTop, lastWindowHeight)
      && frame[lastHeaderHeight + lastWindowHeight..] == BottomRows(dock, lastDockHeight)
    }

    /**
     * What a frame shows: below three rows for the transcript, or as many as there are, the last rows of the
     * dock, all of it if it fits; above them the last rows of the header, all of it if it fits as well; and
     * between the two the transcript from the scroll position on, images as placeholders, blanks behind its end.
     */
    ghost predicate Lays(transcript: seq<string>, dock: seq<string>, header: seq<string>, height: nat,
                         frame: seq<string>)
      reads this
    {
      && |frame| == height
      && (|dock| + 3 <= height ==> lastDockHeight == |dock|)
      && (|dock| + 3 > height ==> lastDockHeight == if height >= 3 then height - 3 else 0)
      && (|header| + lastDockHeight + 3 <= height ==> lastHeaderHeight == |header|)
      && (|header| + lastDockHeight + 3 > height ==>
            lastHeaderHeight == if height >= lastDockHeight + 3 then height - lastDockHeight - 3 else 0)
      && lastHeaderHeight + lastDockHeight <= height
      && (lastDockHeight <= |dock| && lastHeaderHeight <= |header|)
      && forall row | 0 <= row < height :: frame[row] == RowLaid(transcript, dock, header, height, row)
    }

    /** A row of the frame: header, transcript or dock. */
    ghost function RowLaid(transcript: seq<string>, dock: seq<string>, header: seq<string>, height: nat,
                           row: nat): string
      requires lastDockHeight <= |dock| && lastHeaderHeight <= |header| && row < height
      reads this
    {
      if row < lastHeaderHeight then header[|header| - lastHeaderHeight + row]
      else if row >= height - lastDockHeight then dock[|dock| - (height - row)]
      else
        var line := scrollTop + row - lastHeaderHeight;
        if line >= |transcript| then ""
        else if style.isImageLine(transcript[line]) then style.highlight(line, IMAGE_PLACEHOLDER)
        else style.highlight(line, transcript[line])
    }

    lemma ComposedLays(transcript: seq<string>, dock: seq<string>, header: seq<string>, height: nat, frame: seq<string>)
      requires Composed(transcript, dock, header, frame) && |frame| == height
      requires lastDockHeight == ClippedFullscreenDockHeight(|dock|, height)
      requires lastHeaderHeight == Min(|header|, Max(0, height - lastDockHeight - FULLSCREEN_MIN_TRANSCRIPT_ROWS))
      ensures Lays(transcript, dock, header, height, frame)
    {
      hide RowLaid, Window;
      forall row | 0 <= row < height ensures frame[row] == RowLaid(transcript, dock, header, height, row) {
        RowIsLaid(transcript, dock, header, height, frame, row);
      }
    }

    lemma RowIsLaid(transcript: seq<string>, dock: seq<string>, header: seq<string>, height: nat, frame: seq<string>,
                    row: nat)
      requires Composed(transcript, dock, header, frame) && |frame| == height && row < height
      ensures frame[row] == RowLaid(transcript, dock, header, height, row)
    {
      var above, below := frame[..lastHeaderHeight], frame[lastHeaderHeight + lastWindowHeight..];
      var window := frame[lastHeaderHeight..lastHeaderHeight + lastWindowHeight];
      if row < lastHeaderHeight {
        assert above[row] == frame[row];
      } else if row >= height - lastDockHeight {
        assert below[row - lastHeaderHeight - lastWindowHeight] == frame[row];
      } else {
        var i := row - lastHeaderHeight;
        assert window[i] == frame[row] && window[i] == Window(style, transcript, scrollTop, lastWindowHeight)[i];
        if scrollTop + i < |transcript| {
          DrawnExactly(style, scrollTop + i, transcript[scrollTop + i]);
        }
      }
    }

    /**
     * A frame of exactly `height` rows. The dock is clipped so that three rows stay for the
     * transcript, the header takes what is left above them, and each keeps its bottom rows.
     */
    method ComposeFrame(transcript: seq<string>, dock: seq<string>, height: nat, header: seq<string>)
      returns (frame: seq<string>)
      requires Valid()
      modifies this`scrollTop, this`lastMaxScroll, this`lastWindowHeight, this`lastHeaderHeight, this`lastHeaderLines,
               this`lastDockLines, this`lastDockHeight
      ensures Valid() && |frame| == height
      ensures Composed(transcript, dock, header, frame) && Lays(transcript, dock, header, height, frame)
      ensures lastDockHeight == ClippedFullscreenDockHeight(|dock|, height)
      ensures lastHeaderHeight == Min(|header|, Max(0, height - lastDockHeight - FULLSCREEN_MIN_TRANSCRIPT_ROWS))
      ensures lastWindowHeight >= Min(height, FULLSCREEN_MIN_TRANSCRIPT_ROWS)
      ensures lastMaxScroll == MaxScroll(|transcript|, lastWindowHeight)
      ensures scrollTop == if following then lastMaxScroll else Min(old(scrollTop), lastMaxScroll)
    {
      hide Lays, Window;
      var dockLines := dock;
      var dockHeight := ClippedFullscreenDockHeight(|dockLines|, height);
      if |dockLines| > dockHeight {
        dockLines := dockLines[|dockLines| - dockHeight..];
      }
      var headerLines := header;
      var maxHeader := Max(0, height - |dockLines| - FULLSCREEN_MIN_TRANSCRIPT_ROWS);
      var headerHeight := Min(|headerLines|, maxHeader);
      if |headerLines| > headerHeight {
        headerLines := headerLines[|headerLines| - headerHeight..];
      }
      var windowHeight := height - |dockLines| - |headerLines|;
      var maxScroll := Max(0, |transcript| - windowHeight);
      if following {
        scrollTop := maxScroll;
      } else {
        scrollTop := Max(0, Min(scrollTop, maxScroll));
      }
      lastMaxScroll := maxScroll;
      lastWindowHeight := windowHeight;
      lastHeaderHeight := |headerLines|;
      lastHeaderLines := |header|;
      lastDockLines := |dock|;
      lastDockHeight := |dockLines|;

      var window := DrawWindow(transcript, windowHeight);
      frame := headerLines + window + dockLines;
      ThreeParts(headerLines, window, dockLines);
      assert Lays(transcript, dock, header, height, frame) by {
        hide Composed, Min, Max;
        ComposedLays(transcript, dock, header, height, frame);
      }
    }

    /**
     * While the view is paused, lines appended between two frames change nothing on a full window: the
     * second frame is the first one, and the scroll position has not moved.
     */
    method ComposeAcrossAppend(transcript: seq<string>, appended: seq<string>, dock: seq<string>, height: nat,
                               header: seq<string>)
      returns (before: seq<string>, after: seq<string>, position: nat)
      requires Valid() && !following
      modifies this`scrollTop, this`lastMaxScroll, this`lastWindowHeight, this`lastHeaderHeight, this`lastHeaderLines,
               this`lastDockLines, this`lastDockHeight
      ensures Valid() && |before| == |after| == height
      ensures position + lastWindowHeight <= |transcript| ==> after == before && scrollTop == position
      ensures Composed(transcript + appended, dock, header, after)
    {
      hide Window, BottomRows, Lays;
      before := ComposeFrame(transcript, dock, height, header);
      position := scrollTop;
      ghost var rows := lastWindowHeight;
      after := ComposeFrame(transcript + appended, dock, height, header);
      if position + rows <= |transcript| {
        PausedWindowIsStable(style, transcript, appended, position, rows);
        assert before == before[..lastHeaderHeight] + before[lastHeaderHeight..lastHeaderHeight + rows]
                         + before[lastHeaderHeight + rows..];
        assert after == after[..lastHeaderHeight] + after[lastHeaderHeight..lastHeaderHeight + rows]
                        + after[lastHeaderHeight + rows..];
      }
    }

    /** The slice of the transcript, drawn line by line and padded to the window. */
    method DrawWindow(transcript: seq<string>, windowHeight: nat) returns (window: seq<string>)
      requires scrollTop <= MaxScroll(|transcript|, windowHeight)
      ensures window == Window(style, transcript, scrollTop, windowHeight)
    {
      var end := Min(scrollTop + windowHeight, |transcript|);
      window := transcript[scrollTop..end];
      for i := 0 to |window|
        invariant |window| == end - scrollTop
        invariant forall j | 0 <= j < i :: window[j] == Drawn(style, scrollTop + j, transcript[scrollTop + j])
        invariant forall j | i <= j < |window| :: window[j] == transcript[scrollTop + j]
      {
        window := window[i := Drawn(style, scrollTop + i, window[i])];
      }
      while |window| < windowHeight
        invariant end - scrollTop <= |window| <= windowHeight
        invariant forall j | 0 <= j < |window| ::
                    window[j] ==
                    if scrollTop + j < |transcript| then Drawn(style, scrollTop + j, transcript[scrollTop + j]) else ""
      {
        window := window + [""];
      }
    }

    // -------------------------------------------------------------- scrolling

    /** A step from where the window is, or from the end while it follows; only at the end does it follow. */
    method ScrollBy(delta: int)
      requires Valid()
      modifies this`scrollTop, this`following
      ensures Valid()
      ensures scrollTop == Max(0, Min(old(scrollTop) + delta, lastMaxScroll))
      ensures following <==> scrollTop == lastMaxScroll
    {
      var base := if following then lastMaxScroll else scrollTop;
      scrollTop := Max(0, Min(base + delta, lastMaxScroll));
      following := scrollTop >= lastMaxScroll;
    }

    method ScrollToTop()
      requires Valid()
      modifies this`scrollTop, this`following
      ensures Valid() && scrollTop == 0 && (following <==> scrollTop == lastMaxScroll)
    {
      scrollTop := 0;
      following := lastMaxScroll == 0;
    }

    method ScrollToBottom()
      requires Valid()
      modifies this`scrollTop, this`following
      ensures Valid() && scrollTop == lastMaxScroll && following
    {
      scrollTop := lastMaxScroll;
      following := true;
    }

    // -------------------------------------------------------------- projections

    function ProjectHeaderRegion(line: int, height: int): Option<ProjectedRegionRows>
      reads this
    {
      var start := Max(0, lastHeaderLines - lastHeaderHeight);
      ProjectRows(line, height, 0, lastHeaderHeight, -start)
    }

    function ProjectTranscriptRegion(line: int, height: int): Option<ProjectedRegionRows>
      reads this
    {
      var base := lastHeaderHeight - scrollTop;
      ProjectRows(line, height, lastHeaderHeight, lastWindowHeight, base)
    }

    function ProjectDockRegion(line: int, height: int): Option<ProjectedRegionRows>
      reads this
    {
      var start := Max(0, lastDockLines - lastDockHeight);
      var base := lastHeaderHeight + lastWindowHeight;
      ProjectRows(line, height, base, lastDockHeight, base - start)
    }

    /** Each projected row of a region shows that region's own line of the composed frame. */
    lemma ProjectionsPointAtTheirLines(transcript: seq<string>, dock: seq<string>, header: seq<string>,
                                       frame: seq<string>, line: int, height: int, row: int)
      requires Composed(transcript, dock, header, frame)
      ensures var p := ProjectHeaderRegion(line, height);
              OnRow(p, row) ==>
                var source := line + (row - p.value.anchor);
                0 <= row < |frame| && 0 <= source < |header| && frame[row] == header[source]
      ensures var p := ProjectDockRegion(line, height);
              OnRow(p, row) ==>
                var source := line + (row - p.value.anchor);
                0 <= row < |frame| && 0 <= source < |dock| && frame[row] == dock[source]
      ensures var p := ProjectTranscriptRegion(line, height);
              OnRow(p, row) ==>
                var source := line + (row - p.value.anchor);
                && 0 <= row < |frame| && 0 <= source
                && frame[row] == if source < |transcript| then Drawn(style, source, transcript[source]) else ""
    {
      var top, bottom := lastHeaderHeight, lastHeaderHeight + lastWindowHeight;
      if 0 <= row < top {
        assert frame[row] == frame[..top][row];
      } else if top <= row < bottom {
        assert frame[row] == frame[top..bottom][row - top];
      } else if bottom <= row < |frame| {
        assert frame[row] == frame[bottom..][row - bottom];
      }
    }

    /** Which part of the final frame is on the screen; `frame` may have more rows than fit. */
    method ApplyFrameGeometry(frameLength: nat, height: int)
      modifies this`lastFrameVisibleStart, this`lastFrameVisibleHeight
      ensures lastFrameVisibleHeight == Min(Max(0, height), frameLength)
      ensures lastFrameVisibleStart == frameLength - lastFrameVisibleHeight
    {
      lastFrameVisibleHeight := Min(Max(0, height), frameLength);
      lastFrameVisibleStart := Max(0, frameLength - lastFrameVisibleHeight);
    }

    function VisibleStart(): nat
      reads this
    {
      if lastFrameVisibleHeight > 0 then lastFrameVisibleStart else 0
    }

    function VisibleHeight(): nat
      reads this
    {
      if lastFrameVisibleHeight > 0 then lastFrameVisibleHeight else lastWindowHeight
    }

    /** Frame rows of the transcript window that are on the screen: first and last, or nothing. */
    function TranscriptBounds(): Option<(int, int)>
      reads this
    {
      if lastWindowHeight == 0 || VisibleHeight() == 0 then None
      else
        var visibleEnd := VisibleStart() + VisibleHeight() - 1;
        var start := Max(lastHeaderHeight, VisibleStart());
        var end := Min(lastHeaderHeight + lastWindowHeight - 1, visibleEnd);
        if start > end then None else Some((start, end))
    }

    function TranscriptLineForScreenRow(screenRow: int, clamp: bool): (line: Option<int>)
      reads this
      ensures line.Some? ==> scrollTop <= line.value < scrollTop + lastWindowHeight
    {
      var bounds := TranscriptBounds();
      if bounds.None? then None
      else if !clamp && (screenRow < 0 || screenRow >= VisibleHeight()) then None
      else
        var row := if clamp then Max(0, Min(screenRow, VisibleHeight() - 1)) else screenRow;
        var frameLine := VisibleStart() + row;
        var (transcriptStart, transcriptEnd) := bounds.value;
        if !clamp && (frameLine < transcriptStart || frameLine > transcriptEnd) then None
        else
          var clampedFrameLine := Max(transcriptStart, Min(frameLine, transcriptEnd));
          Some(scrollTop + clampedFrameLine - lastHeaderHeight)
    }

    /**
     * Looking up a screen row inverts projecting a transcript line: the row finds the line exactly
     * when the line projects onto that row and the row is on the screen.
     */
    lemma LookupInvertsProjection(screenRow: int, line: int)
      ensures TranscriptLineForScreenRow(screenRow, false) == Some(line)
              <==> (0 <= screenRow < VisibleHeight()
                    && ProjectTranscriptRegion(line, 1).Some?
                    && ProjectTranscriptRegion(line, 1).value.from == VisibleStart() + screenRow)
    {
      var row := VisibleStart() + screenRow;
      var p := ProjectTranscriptRegion(line, 1);
      assert p.Some? ==> OnRow(p, p.value.from);
      if TranscriptLineForScreenRow(screenRow, false) == Some(line) {
        assert lastHeaderHeight <= row < lastHeaderHeight + lastWindowHeight;
        assert OnRow(p, row);
      }
    }

    /** With clamping, a row above or below the visible transcript finds its first or last visible line. */
    lemma ClampedLookupStaysVisible(screenRow: int)
      requires TranscriptBounds().Some?
      ensures TranscriptLineForScreenRow(screenRow, true).Some?
      ensures exists row: int :: TranscriptLineForScreenRow(row, false) == TranscriptLineForScreenRow(screenRow, true)
    {
      var (start, end) := TranscriptBounds().value;
      var frameLine := VisibleStart() + Max(0, Min(screenRow, VisibleHeight() - 1));
      var row := Max(start, Min(frameLine, end)) - VisibleStart();
      assert TranscriptLineForScreenRow(row, false) == TranscriptLineForScreenRow(screenRow, true);
    }

    // -------------------------------------------------------------- clicks

    method SetFrameClickRegions(entries: seq<FrameClickEntry>)
      modifies this`frameClickTargets
      ensures frameClickTargets == AllTargets(entries)
    {
      frameClickTargets := [];
      for i := 0 to |entries|
        invariant frameClickTargets == AllTargets(entries[..i])
      {
        AddFrameClickEntry(entries[i]);
        assert entries[..i + 1][..i] == entries[..i];
      }
      assert entries[..|entries|] == entries;
    }

    method AddFrameClickEntry(entry: FrameClickEntry)
      modifies this`frameClickTargets
      ensures frameClickTargets == old(frameClickTargets) + EntryTargets(entry)
    {
      for i := 0 to entry.rows.count
        invariant frameClickTargets == old(frameClickTargets) + EntryTargets(entry)[..i]
      {
        frameClickTargets := frameClickTargets
          + [FrameClickTarget(entry.rows.from + i, entry.region.col, entry.region.width, entry.rows.anchor,
                              entry.region)];
      }
      assert EntryTargets(entry)[..entry.rows.count] == EntryTargets(entry);
    }

    /** One target gives way, in its place, to what the painted span leaves of it. */
    method SpliceTarget(i: nat, line: int, startCol: int, endCol: int)
      requires i < |frameClickTargets|
      modifies this`frameClickTargets
      ensures frameClickTargets == old(frameClickTargets)[..i]
                + Fragments(old(frameClickTargets)[i], line, startCol, endCol) + old(frameClickTargets)[i + 1..]
    {
      var target := frameClickTargets[i];
      var targetEnd := target.col + target.width;
      if target.row != line || endCol <= target.col || startCol >= targetEnd {
        return;
      }
      var fragments: seq<FrameClickTarget> := [];
      if target.col < startCol {
        fragments := fragments + [target.(col := target.col, width := startCol - target.col)];
      }
      if endCol < targetEnd {
        fragments := fragments + [target.(col := endCol, width := targetEnd - endCol)];
      }
      frameClickTargets := frameClickTargets[..i] + fragments + frameClickTargets[i + 1..];
    }

    /** Backwards through the targets, so that splicing in fragments never disturbs those still to come. */
    method SubtractFrameClickCoverage(line: int, startCol: int, endCol: int)
      modifies this`frameClickTargets
      ensures frameClickTargets == Subtracted(old(frameClickTargets), line, startCol, endCol)
    {
      hide Fragments, Subtracted;
      ghost var before := frameClickTargets;
      var i := |frameClickTargets|;
      NothingToSubtract(line, startCol, endCol);
      assert before[..i] == before && before[i..] == [];
      while i > 0
        invariant 0 <= i <= |before|
        invariant frameClickTargets == before[..i] + Subtracted(before[i..], line, startCol, endCol)
      {
        i := i - 1;
        SubtractedFrom(before, i, line, startCol, endCol);
        assert frameClickTargets[..i] == before[..i] && frameClickTargets[i] == before[i];
        ghost var later := Subtracted(before[i + 1..], line, startCol, endCol);
        assert frameClickTargets[i + 1..] == later;
        SpliceTarget(i, line, startCol, endCol);
      }
      assert before[0..] == before && before[..0] == [];
    }

    method ClickTargetAt(screenRow: int, screenCol: int) returns (target: Option<FrameClickTarget>)
      ensures screenRow < 0 || screenCol < 0 ==> target.None?
      ensures screenRow >= 0 && screenCol >= 0 ==>
                && (target.Some? <==> HitAt(frameClickTargets, screenRow, screenCol).Some?)
                && (target.Some? ==>
                      Covers(target.value, screenRow, screenCol)
                      && HitAt(frameClickTargets, screenRow, screenCol) ==
                         Some((target.value.region, target.value.anchor)))
    {
      if screenRow < 0 || screenCol < 0 {
        return None;
      }
      for i := 0 to |frameClickTargets|
        invariant forall j | 0 <= j < i :: !Covers(frameClickTargets[j], screenRow, screenCol)
      {
        if Covers(frameClickTargets[i], screenRow, screenCol) {
          return Some(frameClickTargets[i]);
        }
      }
      return None;
    }
  }

  lemma NothingToSubtract(line: int, startCol: int, endCol: int)
    ensures Subtracted([], line, startCol, endCol) == []
  {}
}
