/**
 * The fullscreen painter: it sends only the rows that changed since the last frame, yet the screen
 * always shows the whole frame. The terminal follows ECMA-48 for CUP, ED and EL.
 */
module Painter {

  /**
   * How the terminal renders a line and how the program cuts one, both left open: `cells` are the
   * columns a line occupies, `slice` is `sliceByColumn(line, 0, width, true)`.
   */
  datatype Rendering = Rendering(cells: string -> seq<char>, slice: (string, nat) -> string)

  /** The only law needed: a line cut to a width occupies no more than that width. */
  ghost predicate Lawful(r: Rendering) {
    forall line, width: nat :: |r.cells(r.slice(line, width))| <= width
  }

  function VisibleWidth(r: Rendering, line: string): nat {
    |r.cells(line)|
  }

  function Clamp(r: Rendering, line: string, width: nat): string {
    if VisibleWidth(r, line) > width then r.slice(line, width) else line
  }

  // ---------------------------------------------------------------- the terminal

  datatype Command =
    | SyncBegin | SyncEnd
    | EraseDisplay
    | EraseLine
    | MoveTo(line: nat, column: nat)
    | Print(text: string)

  datatype Terminal = Terminal(width: nat, height: nat, rows: seq<seq<char>>, row: nat, col: nat) {
    predicate WellFormed() {
      |rows| == height && forall i | 0 <= i < height :: |rows[i]| == width
    }
  }

  function BlankRow(width: nat): (row: seq<char>)
    ensures |row| == width
  {
    seq(width, _ => ' ')
  }

  function BlankRows(width: nat, height: nat): (rows: seq<seq<char>>)
    ensures |rows| == height && forall i | 0 <= i < height :: rows[i] == BlankRow(width)
  {
    seq(height, _ => BlankRow(width))
  }

  /** One cell at the cursor; past the right edge the cursor wraps, past the bottom the screen scrolls. */
  function PutCell(t: Terminal, c: char): (u: Terminal)
    requires t.WellFormed()
    ensures u.WellFormed() && u.width == t.width && u.height == t.height
  {
    if t.width == 0 || t.height == 0 || t.row >= t.height then t
    else if t.col < t.width then
      t.(rows := t.rows[t.row := t.rows[t.row][t.col := c]], col := t.col + 1)
    else if t.row + 1 < t.height then
      t.(rows := t.rows[t.row + 1 := t.rows[t.row + 1][0 := c]], row := t.row + 1, col := 1)
    else
      var scrolled := t.rows[1..] + [BlankRow(t.width)];
      t.(rows := scrolled[t.row := scrolled[t.row][0 := c]], col := 1)
  }

  function PutCells(t: Terminal, cells: seq<char>): (u: Terminal)
    requires t.WellFormed()
    ensures u.WellFormed() && u.width == t.width && u.height == t.height
    decreases |cells|
  {
    if cells == [] then t else PutCells(PutCell(t, cells[0]), cells[1..])
  }

  /** CUP counts from 1 and stops at the edges; ED 2 and EL 2 leave the cursor where it is. */
  function Apply(r: Rendering, t: Terminal, c: Command): (u: Terminal)
    requires t.WellFormed()
    ensures u.WellFormed() && u.width == t.width && u.height == t.height
  {
    match c
    case SyncBegin => t
    case SyncEnd => t
    case EraseDisplay => t.(rows := BlankRows(t.width, t.height))
    case EraseLine => if t.row < t.height then t.(rows := t.rows[t.row := BlankRow(t.width)]) else t
    case MoveTo(line, column) => t.(row := Stop(line, t.height), col := Stop(column, t.width))
    case Print(text) => PutCells(t, r.cells(text))
  }

  function Stop(position: nat, limit: nat): nat {
    var p := if position == 0 then 0 else position - 1;
    if p < limit then p else if limit == 0 then 0 else limit - 1
  }

  function ApplyAll(r: Rendering, t: Terminal, commands: seq<Command>): (u: Terminal)
    requires t.WellFormed()
    ensures u.WellFormed() && u.width == t.width && u.height == t.height
  {
    if commands == [] then t
    else Apply(r, ApplyAll(r, t, commands[..|commands| - 1]), commands[|commands| - 1])
  }

  lemma ApplyOneMore(r: Rendering, t: Terminal, commands: seq<Command>, c: Command)
    requires t.WellFormed()
    ensures ApplyAll(r, t, commands + [c]) == Apply(r, ApplyAll(r, t, commands), c)
  {
    assert (commands + [c])[..|commands|] == commands;
  }

  /** Cells that fit before the right edge replace that part of the cursor's row and nothing else. */
  lemma {:induction false} PutCellsThatFit(t: Terminal, cells: seq<char>)
    requires t.WellFormed() && t.row < t.height && t.col + |cells| <= t.width
    ensures PutCells(t, cells).rows
         == t.rows[t.row := t.rows[t.row][..t.col] + cells + t.rows[t.row][t.col + |cells|..]]
    ensures PutCells(t, cells).row == t.row
    decreases |cells|
  {
    var line := t.rows[t.row];
    if cells == [] {
      assert line[..t.col] + [] + line[t.col..] == line;
    } else {
      var u := PutCell(t, cells[0]);
      PutCellsThatFit(u, cells[1..]);
      assert line[t.col := cells[0]][..t.col + 1] + cells[1..] == line[..t.col] + cells;
      assert line[t.col := cells[0]][t.col + |cells|..] == line[t.col + |cells|..];
    }
  }

  // ---------------------------------------------------------------- what a frame looks like

  /** A frame taller than the screen keeps its bottom rows. */
  function Clip(frame: seq<string>, height: nat): seq<string> {
    if |frame| > height then frame[|frame| - height..] else frame
  }

  function LineAt(frame: seq<string>, row: nat): string {
    if row < |frame| then frame[row] else ""
  }

  /** A line alone on its row: clamped to the width and padded with blanks. */
  function RowPicture(r: Rendering, line: string, width: nat): (row: seq<char>)
    requires Lawful(r)
    ensures |row| == width
  {
    var cells := r.cells(Clamp(r, line, width));
    cells + seq(width - |cells|, _ => ' ')
  }

  /** The full repaint: every line on its own row, from a blank screen. */
  function Picture(r: Rendering, frame: seq<string>, width: nat, height: nat): (rows: seq<seq<char>>)
    requires Lawful(r)
    ensures |rows| == height && forall i | 0 <= i < height :: |rows[i]| == width
  {
    seq(height, i requires 0 <= i < height => RowPicture(r, LineAt(Clip(frame, height), i), width))
  }

  /** The cells stand at the left of the row, and nothing behind them. */
  predicate RowShows(row: seq<char>, cells: seq<char>, width: nat) {
    && |cells| <= width && |row| == width
    && (forall c | 0 <= c < |cells| :: row[c] == cells[c])
    && (forall c | |cells| <= c < width :: row[c] == ' ')
  }

  /**
   * What a screen that shows a frame looks like: its last rows if it is too tall; on each a line that fits
   * as it is and any other cut to the width; and nothing below.
   */
  ghost predicate ShowsFrame(r: Rendering, rows: seq<seq<char>>, frame: seq<string>, width: nat, height: nat) {
    var skipped := if |frame| > height then |frame| - height else 0;
    && |rows| == height
    && (forall i | 0 <= i < height && skipped + i < |frame| ::
          var line := frame[skipped + i];
          RowShows(rows[i], if |r.cells(line)| <= width then r.cells(line) else r.cells(r.slice(line, width)), width))
    && (forall i | 0 <= i < height && skipped + i >= |frame| && r.cells("") == [] :: RowShows(rows[i], [], width))
  }

  lemma PictureShows(r: Rendering, frame: seq<string>, width: nat, height: nat)
    requires Lawful(r)
    ensures ShowsFrame(r, Picture(r, frame, width, height), frame, width, height)
  {
    var skipped := if |frame| > height then |frame| - height else 0;
    var rows := Picture(r, frame, width, height);
    forall i | 0 <= i < height && skipped + i < |frame|
      ensures var line := frame[skipped + i];
              RowShows(rows[i], if |r.cells(line)| <= width then r.cells(line) else r.cells(r.slice(line, width)),
                       width)
    {
      PictureRow(r, frame, width, height, i);
    }
    forall i | 0 <= i < height && skipped + i >= |frame| && r.cells("") == [] ensures RowShows(rows[i], [], width) {
      PictureRow(r, frame, width, height, i);
    }
  }

  /** The three commands of a repainted row put exactly that row's picture on the screen. */
  lemma RepaintRow(r: Rendering, t: Terminal, row: nat, line: string)
    requires Lawful(r) && t.WellFormed() && row < t.height
    ensures var u := Apply(r, Apply(r, Apply(r, t, MoveTo(row + 1, 1)), EraseLine), Print(Clamp(r, line, t.width)));
            u.rows == t.rows[row := RowPicture(r, line, t.width)]
  {
    hide Apply, RowPicture, Clamp;
    var erased := Apply(r, Apply(r, t, MoveTo(row + 1, 1)), EraseLine);
    RowErased(r, t, row);
    RowPrinted(r, erased, row, line);
    assert t.rows[row := BlankRow(t.width)][row := RowPicture(r, line, t.width)]
           == t.rows[row := RowPicture(r, line, t.width)];
  }

  lemma RowErased(r: Rendering, t: Terminal, row: nat)
    requires t.WellFormed() && row < t.height
    ensures var erased := Apply(r, Apply(r, t, MoveTo(row + 1, 1)), EraseLine);
            && erased.WellFormed() && erased.width == t.width && erased.height == t.height
            && erased.row == row && erased.col == 0 && erased.rows == t.rows[row := BlankRow(t.width)]
  {}

  lemma RowPrinted(r: Rendering, t: Terminal, row: nat, line: string)
    requires Lawful(r) && t.WellFormed() && row < t.height && t.row == row && t.col == 0
             && t.rows[row] == BlankRow(t.width)
    ensures Apply(r, t, Print(Clamp(r, line, t.width))).rows == t.rows[row := RowPicture(r, line, t.width)]
  {
    hide BlankRow;
    var cells := r.cells(Clamp(r, line, t.width));
    ClampFits(r, line, t.width);
    PutCellsThatFit(t, cells);
    BlankAfter(cells, t.width);
    assert t.rows[row][..0] + cells == cells;
  }

  lemma ClampFits(r: Rendering, line: string, width: nat)
    requires Lawful(r)
    ensures |r.cells(Clamp(r, line, width))| <= width
  {}

  lemma BlankAfter(cells: seq<char>, width: nat)
    requires |cells| <= width
    ensures cells + BlankRow(width)[|cells|..] == cells + seq(width - |cells|, _ => ' ')
  {}

  function RowCommands(row: nat, text: string): seq<Command> {
    [MoveTo(row + 1, 1), EraseLine, Print(text)]
  }

  lemma RowCommandsRepaint(r: Rendering, t: Terminal, written: seq<Command>, row: nat, line: string)
    requires Lawful(r) && t.WellFormed() && row < t.height
    ensures ApplyAll(r, t, written + RowCommands(row, Clamp(r, line, t.width))).rows
         == ApplyAll(r, t, written).rows[row := RowPicture(r, line, t.width)]
  {
    hide ApplyAll, Apply, RowPicture, Clamp;
    var text := Clamp(r, line, t.width);
    RepaintRow(r, ApplyAll(r, t, written), row, line);
    ApplyOneMore(r, t, written, MoveTo(row + 1, 1));
    ApplyOneMore(r, t, written + [MoveTo(row + 1, 1)], EraseLine);
    ApplyOneMore(r, t, written + [MoveTo(row + 1, 1)] + [EraseLine], Print(text));
    assert written + RowCommands(row, text) == written + [MoveTo(row + 1, 1)] + [EraseLine] + [Print(text)];
  }

  /** Commands that leave every row alone. */
  lemma RowsUntouched(r: Rendering, t: Terminal, written: seq<Command>, c: Command)
    requires t.WellFormed() && (c.SyncBegin? || c.SyncEnd? || c.MoveTo?)
    ensures ApplyAll(r, t, written + [c]).rows == ApplyAll(r, t, written).rows
  {
    ApplyOneMore(r, t, written, c);
  }

  /** A row already showing its line's picture needs no repaint. */
  lemma PictureRow(r: Rendering, frame: seq<string>, width: nat, height: nat, row: nat)
    requires Lawful(r) && row < height
    ensures Picture(r, frame, width, height)[row] == RowPicture(r, LineAt(Clip(frame, height), row), width)
  {}

  lemma Started(r: Rendering, t: Terminal)
    requires t.WellFormed()
    ensures ApplyAll(r, t, [SyncBegin]).rows == t.rows
  {}

  lemma ClipTwice(r: Rendering, frame: seq<string>, width: nat, height: nat)
    requires Lawful(r)
    ensures Picture(r, Clip(frame, height), width, height) == Picture(r, frame, width, height)
  {}

  datatype CursorPos = NoCursor | CursorAt(row: nat, col: nat)

  /** The cursor stands where it should, or at the edge if that is off the screen. */
  predicate CursorStands(t: Terminal, cursorPos: CursorPos)
    requires cursorPos.CursorAt?
  {
    && (t.height > 0 ==> t.row == if cursorPos.row < t.height then cursorPos.row else t.height - 1)
    && (t.width > 0 ==> t.col == if cursorPos.col < t.width then cursorPos.col else t.width - 1)
  }

  /** A row is erased only if its line has changed, or the screen had to be cleared. */
  predicate OnlyChanged(written: seq<Command>, before: seq<string>, sameSize: bool, after: seq<string>) {
    forall k | 0 <= k < |written| && written[k].EraseLine? ::
      && k > 0 && written[k - 1].MoveTo? && written[k - 1].line > 0
      && Changed(written[k - 1].line - 1, before, sameSize, after)
  }

  predicate Changed(row: nat, before: seq<string>, sameSize: bool, after: seq<string>) {
    !sameSize || row >= |before| || before[row] != LineAt(after, row)
  }

  lemma ErasesMore(written: seq<Command>, more: seq<Command>, before: seq<string>, sameSize: bool, after: seq<string>)
    requires OnlyChanged(written, before, sameSize, after) && OnlyChanged(more, before, sameSize, after)
    ensures OnlyChanged(written + more, before, sameSize, after)
  {
    forall k | 0 <= k < |written + more| && (written + more)[k].EraseLine?
      ensures k > 0 && (written + more)[k - 1].MoveTo? && (written + more)[k - 1].line > 0
      ensures Changed((written + more)[k - 1].line - 1, before, sameSize, after)
    {
      if k >= |written| {
        assert more[k - |written|] == (written + more)[k] && more[k - |written| - 1] == (written + more)[k - 1];
      }
    }
  }

  lemma PlainCommands(before: seq<string>, sameSize: bool, after: seq<string>)
    ensures OnlyChanged([SyncBegin], before, sameSize, after) && OnlyChanged([SyncEnd], before, sameSize, after)
    ensures OnlyChanged([EraseDisplay], before, sameSize, after) && OnlyChanged([MoveTo(1, 1)], before, sameSize, after)
  {}

  lemma MoveErasesNothing(line: nat, column: nat, before: seq<string>, sameSize: bool, after: seq<string>)
    ensures OnlyChanged([MoveTo(line, column)], before, sameSize, after)
  {}

  lemma RowErasesChanged(row: nat, before: seq<string>, sameSize: bool, after: seq<string>, text: string)
    requires !sameSize || row >= |before| || before[row] != LineAt(after, row)
    ensures OnlyChanged(RowCommands(row, text), before, sameSize, after)
  {}

  lemma CursorPlaced(r: Rendering, t: Terminal, written: seq<Command>, cursorPos: CursorPos)
    requires t.WellFormed() && cursorPos.CursorAt?
    ensures var line := (if cursorPos.row < t.height then cursorPos.row else t.height - 1) + 1;
            CursorStands(ApplyAll(r, t, written + [MoveTo(line, cursorPos.col + 1)] + [SyncEnd]), cursorPos)
  {
    hide ApplyAll;
    var line := (if cursorPos.row < t.height then cursorPos.row else t.height - 1) + 1;
    ApplyOneMore(r, t, written, MoveTo(line, cursorPos.col + 1));
    ApplyOneMore(r, t, written + [MoveTo(line, cursorPos.col + 1)], SyncEnd);
  }

  class Painter {
    const rendering: Rendering
    var prevFrame: seq<string>
    var prevWidth: nat
    var prevHeight: nat

    constructor (rendering: Rendering)
      ensures this.rendering == rendering && prevFrame == []
    {
      this.rendering := rendering;
      prevFrame, prevWidth, prevHeight := [], 0, 0;
    }

    /**
     * The painter's memory is right about a terminal: if it has the size of the last paint and that
     * paint has not been forgotten, it shows the last frame.
     */
    ghost predicate InSync(t: Terminal)
      requires Lawful(rendering)
      reads this
    {
      && |prevFrame| <= prevHeight
      && (prevFrame != [] && t.width == prevWidth && t.height == prevHeight ==>
            t.rows == Picture(rendering, prevFrame, prevWidth, prevHeight))
    }

    /** Diff painting is full repainting: afterwards the terminal shows the frame, whatever it showed before. */
    method Paint(t: Terminal, frame: seq<string>, width: nat, height: nat, cursorPos: CursorPos)
      returns (written: seq<Command>)
      requires Lawful(rendering) && t.WellFormed() && t.width == width && t.height == height
      requires InSync(t)
      modifies this
      ensures ApplyAll(rendering, t, written).rows == Picture(rendering, frame, width, height)
      ensures ShowsFrame(rendering, ApplyAll(rendering, t, written).rows, frame, width, height)
      ensures InSync(ApplyAll(rendering, t, written))
      ensures cursorPos.CursorAt? ==> CursorStands(ApplyAll(rendering, t, written), cursorPos)
      ensures |written| >= 2 && written[0] == SyncBegin && written[|written| - 1] == SyncEnd
      ensures OnlyChanged(written, old(prevFrame), old(prevWidth) == width && old(prevHeight) == height,
                          Clip(frame, height))
      ensures prevFrame == Clip(frame, height) && prevWidth == width && prevHeight == height
    {
      hide ApplyAll, Apply, RowPicture, Clamp, Picture, ShowsFrame, OnlyChanged, CursorStands, Changed;
      ghost var sameSize := prevWidth == width && prevHeight == height;
      ghost var before := prevFrame;
      var clipped := Clip(frame, height);
      ghost var target := Picture(rendering, frame, width, height);
      forall i | 0 <= i < |prevFrame| && prevWidth == width && prevHeight == height
        ensures Picture(rendering, prevFrame, width, height)[i] == RowPicture(rendering, prevFrame[i], width)
      {
        PictureRow(rendering, prevFrame, width, height, i);
      }
      var buffer := [SyncBegin];
      Started(rendering, t);
      PictureShows(rendering, frame, width, height);
      PlainCommands(before, sameSize, clipped);
      if width != prevWidth || height != prevHeight || |prevFrame| == 0 {
        ErasesMore(buffer, [EraseDisplay], before, sameSize, clipped);
        ErasesMore(buffer + [EraseDisplay], [MoveTo(1, 1)], before, sameSize, clipped);
        buffer := buffer + [EraseDisplay] + [MoveTo(1, 1)];
        prevFrame := [];
      }
      for row := 0 to height
        invariant |prevFrame| <= height && (prevFrame == before || (prevFrame == [] && (!sameSize || before == [])))
        invariant OnlyChanged(buffer, before, sameSize, clipped) && |buffer| > 0 && buffer[0] == SyncBegin
        invariant forall i | 0 <= i < row :: ApplyAll(rendering, t, buffer).rows[i] == target[i]
        invariant forall i | row <= i < |prevFrame| ::
                    ApplyAll(rendering, t, buffer).rows[i] == RowPicture(rendering, prevFrame[i], width)
      {
        var line := LineAt(clipped, row);
        PictureRow(rendering, frame, width, height, row);
        if row < |prevFrame| && prevFrame[row] == line {
          continue;
        }
        RowCommandsRepaint(rendering, t, buffer, row, line);
        RowErasesChanged(row, before, sameSize, clipped, Clamp(rendering, line, width));
        ErasesMore(buffer, RowCommands(row, Clamp(rendering, line, width)), before, sameSize, clipped);
        buffer := buffer + RowCommands(row, Clamp(rendering, line, width));
      }
      if cursorPos.CursorAt? {
        var line := (if cursorPos.row < height then cursorPos.row else height - 1) + 1;
        RowsUntouched(rendering, t, buffer, MoveTo(line, cursorPos.col + 1));
        CursorPlaced(rendering, t, buffer, cursorPos);
        MoveErasesNothing(line, cursorPos.col + 1, before, sameSize, clipped);
        ErasesMore(buffer, [MoveTo(line, cursorPos.col + 1)], before, sameSize, clipped);
        buffer := buffer + [MoveTo(line, cursorPos.col + 1)];
      }
      RowsUntouched(rendering, t, buffer, SyncEnd);
      ErasesMore(buffer, [SyncEnd], before, sameSize, clipped);
      written := buffer + [SyncEnd];
      assert ApplyAll(rendering, t, written).rows == target;
      prevFrame, prevWidth, prevHeight := clipped, width, height;
      ClipTwice(rendering, frame, width, height);
    }

    /** The next paint clears and repaints, so it is right about any screen. */
    method Reset()
      requires Lawful(rendering)
      modifies this`prevFrame
      ensures prevFrame == [] && forall t: Terminal :: InSync(t)
    {
      prevFrame := [];
    }
  }

  // ---------------------------------------------------------------- whole sessions

  /**
   * A step of a session. A paint comes with what the terminal shows if its size has changed since
   * the last paint: a resized terminal may show anything.
   */
  datatype Step =
    | PaintStep(frame: seq<string>, width: nat, height: nat, cursorPos: CursorPos, afterResize: Terminal)
    | ResetStep

  predicate Plausible(s: Step) {
    s.PaintStep? ==> s.afterResize.WellFormed() && s.afterResize.width == s.width && s.afterResize.height == s.height
  }

  function LastPaint(steps: seq<Step>): (p: int)
    ensures -1 <= p < |steps| && (p >= 0 ==> steps[p].PaintStep?)
    ensures forall i | p < i < |steps| :: steps[i].ResetStep?
  {
    if steps == [] then -1
    else if steps[|steps| - 1].PaintStep? then |steps| - 1
    else LastPaint(steps[..|steps| - 1])
  }

  /** After any sequence of paints and resets with changing sizes the terminal shows the last frame in full. */
  method Session(rendering: Rendering, start: Terminal, steps: seq<Step>) returns (t: Terminal)
    requires Lawful(rendering) && start.WellFormed()
    requires forall i | 0 <= i < |steps| :: Plausible(steps[i])
    ensures LastPaint(steps) >= 0 ==>
              var s := steps[LastPaint(steps)];
              ShowsFrame(rendering, t.rows, s.frame, s.width, s.height)
    ensures LastPaint(steps) < 0 ==> t == start
  {
    hide ShowsFrame;
    t := start;
    var painter := new Painter(rendering);
    for i := 0 to |steps|
      invariant t.WellFormed() && painter.rendering == rendering && painter.InSync(t)
      invariant painter.prevFrame != [] ==> painter.prevWidth == t.width && painter.prevHeight == t.height
      invariant LastPaint(steps[..i]) >= 0 ==>
                  var s := steps[LastPaint(steps[..i])];
                  && ShowsFrame(rendering, t.rows, s.frame, s.width, s.height)
                  && t.width == s.width && t.height == s.height
      invariant LastPaint(steps[..i]) < 0 ==> t == start
    {
      assert steps[..i + 1][..i] == steps[..i];
      match steps[i] {
        case ResetStep => painter.Reset();
        case PaintStep(frame, width, height, cursorPos, afterResize) =>
          if t.width != width || t.height != height {
            t := afterResize;
          }
          var written := painter.Paint(t, frame, width, height, cursorPos);
          t := ApplyAll(rendering, t, written);
      }
    }
    assert steps[..|steps|] == steps;
  }
}
