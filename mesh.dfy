/**
 * The unstructured mesh and its legacy-VTK ASCII reader and writer
 * (class `Mesh::Unstructured`). A file is a sequence of lines; the reader
 * sorts them into sections, turns every POINTS line into a point and every
 * cell of type 5 (VTK_TRIANGLE) into a CST; the writer emits the header and
 * the POINTS, CELLS and CELL_TYPES sections from the mesh's own lists.
 */
module Mesh {
  import opened Wrappers
  import opened Text
  import opened Sections
  import opened Elements

  /** A mesh point. Its coordinates are opaque: the point is the line it was read from. */
  datatype Point = Point(line: string)

  datatype ReadError =
    | CellCountMismatch(cells: nat, cellTypes: nat)  // the reader's assertion on the section sizes
    | MalformedCell(index: nat)                      // a type-5 cell whose count and three ids are not all `int`s

  /** The cell type of a CST, written as `std::to_string(5)` writes it. */
  const TriangleType: string := "5"

  /** The value of an `Unstructured` mesh: its point list and one element list per variant. */
  datatype Grid = Grid(points: seq<Point>, csts: seq<CST>, q4s: seq<Q4>, lsts: seq<LST>, q9s: seq<Q9>) {

    /** `size()`: two degrees of freedom per point. */
    function Size(): int {
      2 * |points|
    }

    /** `nPoints()`, which the source computes exactly like `size()`. */
    function NPoints(): int {
      2 * |points|
    }

    /** `nElements()`: the number of cells of all four variants. */
    function NElements(): int {
      |csts| + |q4s| + |lsts| + |q9s|
    }

    /** `nElementNodes()`: per cell its leading node count plus its node ids. */
    function NElementNodes(): int {
      4 * |csts| + 5 * |q4s| + 7 * |lsts| + 10 * |q9s|
    }
  }

  // ---------------------------------------------------------------- reading

  /** Every point line becomes one point, in file order. */
  function PointsOf(strPoints: seq<string>): (ps: seq<Point>)
    ensures |ps| == |strPoints|
    ensures forall n :: 0 <= n < |ps| ==> ps[n].line == strPoints[n]
  {
    seq(|strPoints|, n requires 0 <= n < |strPoints| => Point(strPoints[n]))
  }

  /** `k` successive `in >> n` extractions of an `int` from the words `ts`. */
  function ReadInts(ts: seq<string>, k: nat): Option<seq<Int32>>
    decreases k
  {
    if k == 0 then Some([])
    else if ts == [] then None
    else
      match ParseInt(ts[0])
      case None => None
      case Some(x) =>
        match ReadInts(ts[1..], k - 1)
        case None => None
        case Some(xs) => Some([x] + xs)
  }

  /**
   * The extractions all succeed exactly when the first `k` words are
   * `int`s, and then give their values in order.
   */
  lemma {:induction false} ReadIntsSucceedsOnInts(ts: seq<string>, k: nat)
    ensures var r := ReadInts(ts, k);
      (r.Some? <==> |ts| >= k && forall i :: 0 <= i < k ==> ParseInt(ts[i]).Some?) &&
      (r.Some? ==> |r.value| == k && forall i :: 0 <= i < k ==> ParseInt(ts[i]) == Some(r.value[i]))
    decreases k
  {
    if k > 0 && ts != [] {
      ReadIntsSucceedsOnInts(ts[1..], k - 1);
      if ParseInt(ts[0]).Some? && ReadInts(ts[1..], k - 1).Some? {
        var r := ReadInts(ts, k);
        forall i | 0 <= i < k ensures ParseInt(ts[i]) == Some(r.value[i]) {
          if i > 0 {
            assert ts[i] == ts[1..][i - 1];
          }
        }
      } else if ParseInt(ts[0]).Some? && |ts| >= k {
        var i :| 0 <= i < k - 1 && ParseInt(ts[1..][i]).None?;
        assert ts[1..][i] == ts[i + 1];
      }
    }
  }

  /**
   * `in >> dummy >> id[0] >> id[1] >> id[2]` on a cell line: the leading
   * count is read and dropped, the next three words are the node ids.
   */
  function CellIds(line: string): Option<Ids3> {
    match ReadInts(Tokens(line), 4)
    case None => None
    case Some(xs) => Some(xs[1..])
  }

  /**
   * A cell line is read when its first four words are `int`s, and then its
   * node ids are the values of words 1 to 3.
   */
  lemma CellIdsReadsFourInts(line: string)
    ensures CellIds(line).Some? <==>
      |Tokens(line)| >= 4 && forall k :: 0 <= k < 4 ==> ParseInt(Tokens(line)[k]).Some?
    ensures CellIds(line).Some? ==>
      forall k :: 0 <= k < 3 ==> ParseInt(Tokens(line)[k + 1]) == Some(CellIds(line).value[k])
  {
    ReadIntsSucceedsOnInts(Tokens(line), 4);
  }

  /** The CSTs of cells `n..` in file order, or the first type-5 cell that cannot be read. */
  function CSTsFrom(cells: seq<string>, types: seq<string>, n: nat): Result<seq<CST>, ReadError>
    requires |cells| == |types| && n <= |cells|
    decreases |cells| - n
  {
    if n == |cells| then Success([])
    else if types[n] != TriangleType then CSTsFrom(cells, types, n + 1)
    else
      match CellIds(cells[n])
      case None => Failure(MalformedCell(n))
      case Some(id) =>
        match CSTsFrom(cells, types, n + 1)
        case Failure(e) => Failure(e)
        case Success(rest) => Success([CST(id)] + rest)
  }

  /** What the reading constructor builds from the lines of a file. */
  function ReadGrid(lines: seq<string>): Result<Grid, ReadError> {
    var l := Split(lines).lists;
    if |l.cells| != |l.cellTypes| then Failure(CellCountMismatch(|l.cells|, |l.cellTypes|))
    else
      match CSTsFrom(l.cells, l.cellTypes, 0)
      case Failure(e) => Failure(e)
      case Success(csts) => Success(Grid(PointsOf(l.points), csts, [], [], []))
  }

  /** The loop that turns the point lines into `Points`. */
  method ReadPoints(strPoints: seq<string>) returns (points: seq<Point>)
    ensures points == PointsOf(strPoints)
  {
    points := [];
    for n := 0 to |strPoints|
      invariant points == PointsOf(strPoints[..n])
    {
      assert PointsOf(strPoints[..n + 1]) == points + [Point(strPoints[n])];
      points := points + [Point(strPoints[n])];
    }
    assert strPoints[..|strPoints|] == strPoints;
  }

  function Prepend(acc: seq<CST>, r: Result<seq<CST>, ReadError>): Result<seq<CST>, ReadError> {
    match r
    case Failure(e) => Failure(e)
    case Success(rest) => Success(acc + rest)
  }

  /** The loop over the cells that builds `CSTs`. */
  method ReadCSTs(cells: seq<string>, types: seq<string>) returns (r: Result<seq<CST>, ReadError>)
    requires |cells| == |types|
    ensures r == CSTsFrom(cells, types, 0)
  {
    var csts: seq<CST> := [];
    match CSTsFrom(cells, types, 0) {
      case Failure(_) =>
      case Success(all) => assert [] + all == all;
    }
    for n := 0 to |cells|
      invariant CSTsFrom(cells, types, 0) == Prepend(csts, CSTsFrom(cells, types, n))
    {
      if types[n] == TriangleType {
        var id := CellIds(cells[n]);
        if id.None? {
          return Failure(MalformedCell(n));
        }
        match CSTsFrom(cells, types, n + 1) {
          case Failure(_) =>
          case Success(rest) => assert csts + ([CST(id.value)] + rest) == (csts + [CST(id.value)]) + rest;
        }
        csts := csts + [CST(id.value)];
      }
    }
    assert csts + [] == csts;
    return Success(csts);
  }

  /**
   * The indices, from `n` on and in increasing order, of the cells whose
   * type line is exactly "5".
   */
  function TriangleIndices(types: seq<string>, n: nat): (r: seq<nat>)
    requires n <= |types|
    ensures forall k :: 0 <= k < |r| ==> n <= r[k] < |types| && types[r[k]] == TriangleType
    ensures forall m :: n <= m < |types| && types[m] == TriangleType ==> m in r
    ensures forall k, k' :: 0 <= k < k' < |r| ==> r[k] < r[k']
    decreases |types| - n
  {
    if n == |types| then []
    else if types[n] == TriangleType then [n] + TriangleIndices(types, n + 1)
    else TriangleIndices(types, n + 1)
  }

  /**
   * A successful read keeps one CST per type-5 cell and no other, in cell
   * order, each holding the three ids of its cell line.
   */
  lemma {:induction false} CSTsFollowTriangles(cells: seq<string>, types: seq<string>, n: nat)
    requires |cells| == |types| && n <= |cells|
    requires CSTsFrom(cells, types, n).Success?
    ensures var cs, ti := CSTsFrom(cells, types, n).value, TriangleIndices(types, n);
      |cs| == |ti| && forall k :: 0 <= k < |cs| ==> CellIds(cells[ti[k]]) == Some(cs[k].id)
    decreases |cells| - n
  {
    if n < |cells| {
      CSTsFollowTriangles(cells, types, n + 1);
      var rest, ti := CSTsFrom(cells, types, n + 1).value, TriangleIndices(types, n + 1);
      if types[n] == TriangleType {
        var c := CST(CellIds(cells[n]).value);
        assert CSTsFrom(cells, types, n).value == [c] + rest;
        assert TriangleIndices(types, n) == [n] + ti;
      }
    }
  }

  lemma SuffixCons(xs: seq<CST>, n: nat)
    requires n < |xs|
    ensures xs[n..] == [xs[n]] + xs[n + 1..]
  {
    assert xs[n..] == [xs[n]] + xs[n + 1..];
  }

  /** Cells that are all readable triangles are read as exactly the CSTs they spell, in order. */
  lemma {:induction false} CSTsOfTriangles(cells: seq<string>, types: seq<string>, xs: seq<CST>, n: nat)
    requires |cells| == |types| == |xs| && n <= |cells|
    requires forall k :: 0 <= k < |xs| ==> types[k] == TriangleType && CellIds(cells[k]) == Some(xs[k].id)
    ensures CSTsFrom(cells, types, n) == Success(xs[n..])
    decreases |cells| - n
  {
    if n < |cells| {
      CSTsOfTriangles(cells, types, xs, n + 1);
      assert types[n] == TriangleType && CellIds(cells[n]) == Some(xs[n].id);
      SuffixCons(xs, n);
    } else {
      assert xs[n..] == [];
    }
  }

  ghost predicate IsMalformedTriangle(cells: seq<string>, types: seq<string>, m: nat)
    requires |cells| == |types|
  {
    m < |cells| && types[m] == TriangleType && CellIds(cells[m]).None?
  }

  /**
   * Reading the cells fails exactly when some type-5 cell cannot be read,
   * and then it names the first such cell.
   */
  lemma {:induction false} CSTsFailAtFirstMalformed(cells: seq<string>, types: seq<string>, n: nat)
    requires |cells| == |types| && n <= |cells|
    ensures CSTsFrom(cells, types, n).Failure? <==>
      exists m :: n <= m < |cells| && IsMalformedTriangle(cells, types, m)
    ensures CSTsFrom(cells, types, n).Failure? ==>
      CSTsFrom(cells, types, n).error.MalformedCell? &&
      var m := CSTsFrom(cells, types, n).error.index;
      n <= m &&
      IsMalformedTriangle(cells, types, m) &&
      forall m' :: n <= m' < m ==> !IsMalformedTriangle(cells, types, m')
    decreases |cells| - n
  {
    if n < |cells| {
      CSTsFailAtFirstMalformed(cells, types, n + 1);
      if IsMalformedTriangle(cells, types, n) {
      } else if CSTsFrom(cells, types, n + 1).Failure? {
        var m := CSTsFrom(cells, types, n + 1).error.index;
        assert forall m' :: n <= m' < m ==> !IsMalformedTriangle(cells, types, m') by {
          forall m' | n <= m' < m ensures !IsMalformedTriangle(cells, types, m') {
            if m' > n {
              assert n + 1 <= m' < m;
            }
          }
        }
      } else {
        forall m | n <= m < |cells| ensures !IsMalformedTriangle(cells, types, m) {
          if m > n {
            assert n + 1 <= m;
          }
        }
      }
    }
  }

  /**
   * What the reader does with the section lists: it succeeds exactly when
   * the numbers of cell lines and cell-type lines agree and every type-5
   * cell can be read. A mismatch fails with the two counts, a cell that
   * cannot be read fails with the error of `CSTsFrom`, and a success keeps
   * one point per point line and the CSTs of the type-5 cells, and fills
   * no other element list.
   */
  lemma ReadGridOutcome(lines: seq<string>)
    ensures var l := Split(lines).lists;
      (ReadGrid(lines).Success? <==>
        |l.cells| == |l.cellTypes| && CSTsFrom(l.cells, l.cellTypes, 0).Success?) &&
      (|l.cells| != |l.cellTypes| ==> ReadGrid(lines) == Failure(CellCountMismatch(|l.cells|, |l.cellTypes|))) &&
      (|l.cells| == |l.cellTypes| && ReadGrid(lines).Failure? ==>
        Failure(ReadGrid(lines).error) == CSTsFrom(l.cells, l.cellTypes, 0)) &&
      (ReadGrid(lines).Success? ==>
        ReadGrid(lines).value.points == PointsOf(l.points) &&
        ReadGrid(lines).value.q4s == [] && ReadGrid(lines).value.lsts == [] && ReadGrid(lines).value.q9s == [] &&
        Success(ReadGrid(lines).value.csts) == CSTsFrom(l.cells, l.cellTypes, 0))
  {
  }

  // ---------------------------------------------------------------- writing

  /** The four fixed header lines, word by word: "# vtk DataFile Version 2.0", "created by fem", "ASCII", "DATASET UNSTRUCTURED_GRID". */
  const Header: seq<string> := [
    Unwords(["#", "vtk", "DataFile", "Version", "2.0"]),
    Unwords(["created", "by", "fem"]),
    Unwords(["ASCII"]),
    Unwords(["DATASET", "UNSTRUCTURED_GRID"])
  ]

  /** `out << "3 " << id[0] << " " << id[1] << " " << id[2]`. */
  function CellLine(c: CST): string {
    Unwords(["3", ShowInt(c.id[0]), ShowInt(c.id[1]), ShowInt(c.id[2])])
  }

  /** The words of a written cell line: the node count 3 and the three ids. */
  lemma CellLineWords(c: CST)
    ensures Tokens(CellLine(c)) == ["3", ShowInt(c.id[0]), ShowInt(c.id[1]), ShowInt(c.id[2])]
  {
    TokensOfUnwords(["3", ShowInt(c.id[0]), ShowInt(c.id[1]), ShowInt(c.id[2])]);
  }

  function PointLines(ps: seq<Point>, formatPoint: Point -> string): seq<string> {
    seq(|ps|, n requires 0 <= n < |ps| => formatPoint(ps[n]))
  }

  function CellLines(cs: seq<CST>): seq<string> {
    seq(|cs|, e requires 0 <= e < |cs| => CellLine(cs[e]))
  }

  function TypeLines(cs: seq<CST>): seq<string> {
    seq(|cs|, e => TriangleType)
  }

  lemma PointLinesSnoc(ps: seq<Point>, n: nat, formatPoint: Point -> string)
    requires n < |ps|
    ensures PointLines(ps[..n + 1], formatPoint) == PointLines(ps[..n], formatPoint) + [formatPoint(ps[n])]
  {
    assert PointLines(ps[..n + 1], formatPoint) == PointLines(ps[..n], formatPoint) + [formatPoint(ps[n])];
  }

  lemma CellLinesSnoc(cs: seq<CST>, e: nat)
    requires e < |cs|
    ensures CellLines(cs[..e + 1]) == CellLines(cs[..e]) + [CellLine(cs[e])]
  {
    assert CellLines(cs[..e + 1]) == CellLines(cs[..e]) + [CellLine(cs[e])];
  }

  lemma TypeLinesSnoc(cs: seq<CST>, e: nat)
    requires e < |cs|
    ensures TypeLines(cs[..e + 1]) == TypeLines(cs[..e]) + [TriangleType]
  {
    assert TypeLines(cs[..e + 1]) == TypeLines(cs[..e]) + [TriangleType];
  }

  /** `"POINTS " << Points.size() << " double"`. */
  function PointsHeader(g: Grid): string {
    Unwords(["POINTS", ShowInt(|g.points|), "double"])
  }

  /** `"CELLS " << nElements() << " " << nElementNodes()`. */
  function CellsHeader(g: Grid): string {
    Unwords(["CELLS", ShowInt(g.NElements()), ShowInt(g.NElementNodes())])
  }

  /** `"CELL_TYPES " << nElements()`. */
  function TypesHeader(g: Grid): string {
    Unwords(["CELL_TYPES", ShowInt(g.NElements())])
  }

  function PointsBlock(g: Grid, formatPoint: Point -> string): seq<string> {
    [PointsHeader(g)] + PointLines(g.points, formatPoint)
  }

  function CellsBlock(g: Grid): seq<string> {
    ["", CellsHeader(g)] + CellLines(g.csts)
  }

  function TypesBlock(g: Grid): seq<string> {
    ["", TypesHeader(g)] + TypeLines(g.csts)
  }

  /**
   * The lines `Print` writes. A point is written as `formatPoint` renders
   * it (the source prints the two coordinates and a " 0.0" z column).
   */
  function Render(g: Grid, formatPoint: Point -> string): seq<string> {
    Header + PointsBlock(g, formatPoint) + CellsBlock(g) + TypesBlock(g)
  }

  /**
   * The POINTS section: a header giving the number of points (half of both
   * `size()` and `nPoints()`) and then exactly one line per point, in order.
   */
  lemma PointsBlockLayout(g: Grid, formatPoint: Point -> string)
    ensures var b := PointsBlock(g, formatPoint);
      |b| == 1 + |g.points| &&
      Tokens(b[0]) == ["POINTS", ShowInt(|g.points|), "double"] &&
      g.Size() == g.NPoints() == 2 * |g.points| &&
      forall n :: 0 <= n < |g.points| ==> b[1 + n] == formatPoint(g.points[n])
  {
    TokensOfUnwords(["POINTS", ShowInt(|g.points|), "double"]);
  }

  /** The CELLS section: a blank line, the header, then one `3 i j k` line per CST in order. */
  lemma CellsBlockLayout(g: Grid)
    ensures var b := CellsBlock(g);
      |b| == 2 + |g.csts| && b[0] == "" &&
      Tokens(b[1]) == ["CELLS", ShowInt(g.NElements()), ShowInt(g.NElementNodes())] &&
      forall e :: 0 <= e < |g.csts| ==> b[2 + e] == CellLine(g.csts[e])
  {
    TokensOfUnwords(["CELLS", ShowInt(g.NElements()), ShowInt(g.NElementNodes())]);
  }

  /** The CELL_TYPES section: a blank line, the header, then one "5" per CST. */
  lemma TypesBlockLayout(g: Grid)
    ensures var b := TypesBlock(g);
      |b| == 2 + |g.csts| && b[0] == "" &&
      Tokens(b[1]) == ["CELL_TYPES", ShowInt(g.NElements())] &&
      forall e :: 2 <= e < |b| ==> b[e] == TriangleType
  {
    TokensOfUnwords(["CELL_TYPES", ShowInt(g.NElements())]);
  }

  /** The written file is the four header lines and then the three sections, in this order. */
  lemma RenderLayout(g: Grid, formatPoint: Point -> string)
    ensures var r, np, nc := Render(g, formatPoint), |g.points|, |g.csts|;
      |r| == 4 + (1 + np) + (2 + nc) + (2 + nc) &&
      r[..4] == Header &&
      r[4..5 + np] == PointsBlock(g, formatPoint) &&
      r[5 + np..7 + np + nc] == CellsBlock(g) &&
      r[7 + np + nc..] == TypesBlock(g)
  {
    var h, pb, cb, tb := Header, PointsBlock(g, formatPoint), CellsBlock(g), TypesBlock(g);
    var r := Render(g, formatPoint);
    assert r == h + pb + cb + tb;
    assert |h| == 4 && |pb| == 1 + |g.points| && |cb| == 2 + |g.csts|;
    assert r[..4] == h;
    assert r[4..5 + |g.points|] == pb;
    assert r[5 + |g.points|..7 + |g.points| + |g.csts|] == cb;
    assert r[7 + |g.points| + |g.csts|..] == tb;
  }

  /** The number of integers on a run of cell lines. */
  function TokenCount(lines: seq<string>): nat {
    if lines == [] then 0 else |Tokens(lines[0])| + TokenCount(lines[1..])
  }

  lemma {:induction false} CellLinesTokenCount(cs: seq<CST>)
    ensures TokenCount(CellLines(cs)) == 4 * |cs|
    decreases |cs|
  {
    if cs != [] {
      CellLineWords(cs[0]);
      assert CellLines(cs)[1..] == CellLines(cs[1..]);
      CellLinesTokenCount(cs[1..]);
    }
  }

  /**
   * For a mesh of CSTs only (all a read can produce), the counts in the
   * CELLS and CELL_TYPES headers are those of the lines that follow:
   * `nElements()` cell lines and cell-type lines, holding `nElementNodes()`
   * integers in all.
   */
  lemma CellsHeaderCounts(g: Grid)
    requires g.q4s == [] && g.lsts == [] && g.q9s == []
    ensures g.NElements() == |CellLines(g.csts)| == |TypeLines(g.csts)|
    ensures g.NElementNodes() == TokenCount(CellLines(g.csts))
  {
    CellLinesTokenCount(g.csts);
  }

  /** The loop over the points: one line per point, in order, after what is already written. */
  method WritePointLines(before: seq<string>, points: seq<Point>, formatPoint: Point -> string) returns (out: seq<string>)
    ensures out == before + PointLines(points, formatPoint)
  {
    out := before;
    for n := 0 to |points|
      invariant out == before + PointLines(points[..n], formatPoint)
    {
      PointLinesSnoc(points, n, formatPoint);
      out := out + [formatPoint(points[n])];
    }
    assert points[..|points|] == points;
  }

  /** The loop over the CSTs in the CELLS section: `3` and the three node ids per cell. */
  method WriteCellLines(before: seq<string>, csts: seq<CST>) returns (out: seq<string>)
    ensures out == before + CellLines(csts)
  {
    out := before;
    for e := 0 to |csts|
      invariant out == before + CellLines(csts[..e])
    {
      var id := csts[e].id;
      CellLinesSnoc(csts, e);
      out := out + [Unwords(["3", ShowInt(id[0]), ShowInt(id[1]), ShowInt(id[2])])];
    }
    assert csts[..|csts|] == csts;
  }

  /** The loop over the CSTs in the CELL_TYPES section: the type 5 per cell. */
  method WriteTypeLines(before: seq<string>, csts: seq<CST>) returns (out: seq<string>)
    ensures out == before + TypeLines(csts)
  {
    out := before;
    for e := 0 to |csts|
      invariant out == before + TypeLines(csts[..e])
    {
      TypeLinesSnoc(csts, e);
      out := out + ["5"];
    }
    assert csts[..|csts|] == csts;
  }

  // ---------------------------------------------------------------- the class

  class Unstructured {
    var Points: seq<Point>
    var CSTs: seq<CST>
    var Q4s: seq<Q4>
    var LSTs: seq<LST>
    var Q9s: seq<Q9>

    function Data(): Grid
      reads this
    {
      Grid(Points, CSTs, Q4s, LSTs, Q9s)
    }

    /** `Unstructured()`: an empty mesh. */
    constructor ()
      ensures Data() == Grid([], [], [], [], [])
    {
      Points, CSTs, Q4s, LSTs, Q9s := [], [], [], [], [];
    }

    /** `Unstructured(vtkfile)`, given the lines of the file. */
    static method Read(lines: seq<string>) returns (r: Result<Unstructured, ReadError>)
      ensures r.Success? <==> ReadGrid(lines).Success?
      ensures r.Success? ==> fresh(r.value) && r.value.Data() == ReadGrid(lines).value
      ensures r.Failure? ==> ReadGrid(lines) == Failure(r.error)
    {
      var strPoints, strCells, strCellTypes := SplitSections(lines);
      if |strCells| != |strCellTypes| {
        return Failure(CellCountMismatch(|strCells|, |strCellTypes|));
      }
      var m := new Unstructured();
      m.Points := ReadPoints(strPoints);
      var csts := ReadCSTs(strCells, strCellTypes);
      if csts.Failure? {
        return Failure(csts.error);
      }
      m.CSTs := csts.value;
      return Success(m);
    }

    /**
     * `Print(vtkfile)`: the lines written to the file. Each section is its
     * header followed by the lines its loop writes.
     */
    method Print(formatPoint: Point -> string) returns (out: seq<string>)
      ensures out == Render(Data(), formatPoint)
    {
      var g := Data();
      out := Header;
      var block := WritePointLines([PointsHeader(g)], Points, formatPoint);
      out := out + block;
      block := WriteCellLines(["", CellsHeader(g)], CSTs);
      out := out + block;
      block := WriteTypeLines(["", TypesHeader(g)], CSTs);
      out := out + block;
    }
  }
}
