/**
 * The first pass of the VTK reader: a state machine over the lines of the
 * file that sorts the lines of the POINTS, CELLS and CELL_TYPES sections
 * into three lists of strings (`str_points`, `str_cells`, `str_cell_types`).
 */
module Sections {
  import opened Wrappers
  import opened Text

  /** The reader's `mystatus`: which section the current line belongs to. */
  datatype Status = NoSection | PointSection | CellSection | CellTypeSection

  /** The three string vectors the first pass fills. */
  datatype Lists = Lists(points: seq<string>, cells: seq<string>, cellTypes: seq<string>)

  datatype State = State(status: Status, lists: Lists)

  const Start: State := State(NoSection, Lists([], [], []))

  /** The section a header word opens, if it is one of the three keywords. */
  function HeaderStatus(first: string): (r: Option<Status>)
    ensures r != Some(NoSection)
    ensures r.Some? <==> first in {"POINTS", "CELLS", "CELL_TYPES"}
    ensures first == "POINTS" ==> r == Some(PointSection)
    ensures first == "CELLS" ==> r == Some(CellSection)
    ensures first == "CELL_TYPES" ==> r == Some(CellTypeSection)
  {
    if first == "POINTS" then Some(PointSection)
    else if first == "CELLS" then Some(CellSection)
    else if first == "CELL_TYPES" then Some(CellTypeSection)
    else None
  }

  /** A line whose first word opens a section. */
  predicate IsHeader(line: string) {
    HeaderStatus(FirstToken(line)).Some?
  }

  /** A line the reader stores in the list of the current section (if there is one). */
  predicate IsData(line: string) {
    line != "" && !IsHeader(line)
  }

  /** The status a blank or header line switches to. */
  function MarkerStatus(line: string): Status
    requires !IsData(line)
  {
    if line == "" then NoSection else HeaderStatus(FirstToken(line)).value
  }

  /** `lines` appended to the list of section `st`; outside any section nothing is kept. */
  function Extend(l: Lists, st: Status, lines: seq<string>): (r: Lists)
    ensures st == NoSection ==> r == l
    ensures st == PointSection ==> r.points == l.points + lines && r.cells == l.cells && r.cellTypes == l.cellTypes
    ensures st == CellSection ==> r.cells == l.cells + lines && r.points == l.points && r.cellTypes == l.cellTypes
    ensures st == CellTypeSection ==> r.cellTypes == l.cellTypes + lines && r.points == l.points && r.cells == l.cells
  {
    match st
    case NoSection => l
    case PointSection => l.(points := l.points + lines)
    case CellSection => l.(cells := l.cells + lines)
    case CellTypeSection => l.(cellTypes := l.cellTypes + lines)
  }

  /** One iteration of the reading loop. */
  function Step(s: State, line: string): State {
    if line == "" then State(NoSection, s.lists)
    else
      match HeaderStatus(FirstToken(line))
      case Some(st) => State(st, s.lists)
      case None => State(s.status, Extend(s.lists, s.status, [line]))
  }

  /** The reading loop run over `lines` from state `s`. */
  function Run(s: State, lines: seq<string>): State
    decreases |lines|
  {
    if lines == [] then s else Run(Step(s, lines[0]), lines[1..])
  }

  /** The state after the whole file: the status and the three lists. */
  function Split(lines: seq<string>): State {
    Run(Start, lines)
  }

  /** The `while (getline(in, line))` loop of the reader. */
  method SplitSections(lines: seq<string>) returns (strPoints: seq<string>, strCells: seq<string>, strCellTypes: seq<string>)
    ensures Lists(strPoints, strCells, strCellTypes) == Split(lines).lists
  {
    strPoints, strCells, strCellTypes := [], [], [];
    var mystatus := NoSection;
    var i := 0;
    while i < |lines|
      invariant 0 <= i <= |lines|
      invariant Run(State(mystatus, Lists(strPoints, strCells, strCellTypes)), lines[i..]) == Split(lines)
    {
      var line := lines[i];
      assert lines[i..][0] == line && lines[i..][1..] == lines[i + 1..];
      i := i + 1;
      if line == "" {
        mystatus := NoSection;
        continue;
      }
      var first := FirstToken(line);
      if first == "POINTS" {
        mystatus := PointSection;
        continue;
      }
      if first == "CELLS" {
        mystatus := CellSection;
        continue;
      }
      if first == "CELL_TYPES" {
        mystatus := CellTypeSection;
        continue;
      }
      if mystatus == PointSection {
        strPoints := strPoints + [line];
      }
      if mystatus == CellSection {
        strCells := strCells + [line];
      }
      if mystatus == CellTypeSection {
        strCellTypes := strCellTypes + [line];
      }
    }
    assert lines[i..] == [];
  }

  /** Reading `a + b` is reading `a`, then reading `b` from where `a` left off. */
  lemma {:induction false} RunAppend(s: State, a: seq<string>, b: seq<string>)
    ensures Run(s, a + b) == Run(Run(s, a), b)
    decreases |a|
  {
    if a != [] {
      assert (a + b)[0] == a[0] && (a + b)[1..] == a[1..] + b;
      RunAppend(Step(s, a[0]), a[1..], b);
    } else {
      assert a + b == b;
    }
  }

  /** A data line is appended to the list of the current section. */
  lemma StepData(s: State, line: string)
    requires IsData(line)
    ensures Step(s, line) == State(s.status, Extend(s.lists, s.status, [line]))
  {
  }

  lemma ExtendTwice(l: Lists, st: Status, a: seq<string>, b: seq<string>)
    ensures Extend(Extend(l, st, a), st, b) == Extend(l, st, a + b)
  {
    match st
    case NoSection =>
    case PointSection => assert l.points + a + b == l.points + (a + b);
    case CellSection => assert l.cells + a + b == l.cells + (a + b);
    case CellTypeSection => assert l.cellTypes + a + b == l.cellTypes + (a + b);
  }

  /** A run of data lines keeps the status and lands, in order, in the current section's list. */
  lemma {:induction false} RunData(s: State, body: seq<string>)
    requires forall k :: 0 <= k < |body| ==> IsData(body[k])
    ensures Run(s, body) == State(s.status, Extend(s.lists, s.status, body))
    decreases |body|
  {
    if body == [] {
      assert s.lists == Extend(s.lists, s.status, body);
    } else {
      StepData(s, body[0]);
      var s' := State(s.status, Extend(s.lists, s.status, [body[0]]));
      assert Run(s, body) == Run(s', body[1..]);
      RunData(s', body[1..]);
      ExtendTwice(s.lists, s.status, [body[0]], body[1..]);
      assert [body[0]] + body[1..] == body;
    }
  }

  /**
   * A section: a blank or header line followed by data lines switches to the
   * status that line names and appends the data lines to that section's list.
   */
  lemma RunSection(s: State, marker: string, body: seq<string>)
    requires !IsData(marker)
    requires forall k :: 0 <= k < |body| ==> IsData(body[k])
    ensures Run(s, [marker] + body) == State(MarkerStatus(marker), Extend(s.lists, MarkerStatus(marker), body))
  {
    RunAppend(s, [marker], body);
    assert Run(s, [marker]) == State(MarkerStatus(marker), s.lists);
    RunData(State(MarkerStatus(marker), s.lists), body);
  }

  /**
   * The status after `lines` is the one named by the last blank or header
   * line in them: data lines never change it.
   */
  lemma StatusAfterLastMarker(lines: seq<string>, j: nat)
    requires j < |lines| && !IsData(lines[j])
    requires forall k :: j < k < |lines| ==> IsData(lines[k])
    ensures Split(lines).status == MarkerStatus(lines[j])
  {
    var rest := lines[j + 1..];
    assert lines == lines[..j] + ([lines[j]] + rest);
    RunAppend(Start, lines[..j], [lines[j]] + rest);
    RunSection(Run(Start, lines[..j]), lines[j], rest);
  }

  /** Before the first blank or header line the reader is in no section and keeps nothing. */
  lemma NoMarkerKeepsNothing(lines: seq<string>)
    requires forall k :: 0 <= k < |lines| ==> IsData(lines[k])
    ensures Split(lines) == Start
  {
    RunData(Start, lines);
  }

  /**
   * Line `i` of the file: a data line is appended to exactly the list of the
   * section the reader is in before it (and to none outside a section), the
   * other lists unchanged; a blank or header line is stored nowhere and sets
   * the status it names.
   */
  lemma LineRouting(lines: seq<string>, i: nat)
    requires i < |lines|
    ensures var before, after := Split(lines[..i]), Split(lines[..i + 1]);
      if IsData(lines[i]) then
        after == State(before.status, Extend(before.lists, before.status, [lines[i]]))
      else
        after == State(MarkerStatus(lines[i]), before.lists)
  {
    assert lines[..i + 1] == lines[..i] + [lines[i]];
    RunAppend(Start, lines[..i], [lines[i]]);
  }

  ghost predicate AllData(l: Lists) {
    (forall k :: 0 <= k < |l.points| ==> IsData(l.points[k])) &&
    (forall k :: 0 <= k < |l.cells| ==> IsData(l.cells[k])) &&
    (forall k :: 0 <= k < |l.cellTypes| ==> IsData(l.cellTypes[k]))
  }

  lemma {:induction false} RunKeepsData(s: State, lines: seq<string>)
    requires AllData(s.lists)
    ensures AllData(Run(s, lines).lists)
    decreases |lines|
  {
    if lines != [] {
      RunKeepsData(Step(s, lines[0]), lines[1..]);
    }
  }

  /** No stored line is blank or a section header. */
  lemma SplitStoresOnlyData(lines: seq<string>)
    ensures AllData(Split(lines).lists)
  {
    RunKeepsData(Start, lines);
  }
}
