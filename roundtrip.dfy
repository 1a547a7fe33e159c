/**
 * Reading back what the writer wrote: the driver reads a mesh file and saves
 * it to a new one, and the new file, read again, gives the same points (as
 * the writer rendered them) and the same CSTs with the same node ids in the
 * same order.
 */
module RoundTrip {
  import opened Wrappers
  import opened Text
  import opened Sections
  import opened Elements
  import opened Mesh

  lemma FirstWord(ws: seq<string>)
    requires |ws| > 0 && forall k :: 0 <= k < |ws| ==> IsToken(ws[k])
    ensures FirstToken(Unwords(ws)) == ws[0]
  {
    if |ws| == 1 {
      FirstTokenOf(ws[0], "");
      assert ws[0] + "" == ws[0];
    } else {
      assert Unwords(ws) == ws[0] + (" " + Unwords(ws[1..]));
      FirstTokenOf(ws[0], " " + Unwords(ws[1..]));
    }
  }

  lemma HeaderLine0IsData() ensures IsData(Header[0]) { FirstWord(["#", "vtk", "DataFile", "Version", "2.0"]); }
  lemma HeaderLine1IsData() ensures IsData(Header[1]) { FirstWord(["created", "by", "fem"]); }
  lemma HeaderLine2IsData() ensures IsData(Header[2]) { FirstWord(["ASCII"]); }
  lemma HeaderLine3IsData() ensures IsData(Header[3]) { FirstWord(["DATASET", "UNSTRUCTURED_GRID"]); }

  /** The four header lines are read while in no section, so they are dropped. */
  lemma HeaderIsData()
    ensures forall k :: 0 <= k < |Header| ==> IsData(Header[k])
  {
    forall k | 0 <= k < |Header| ensures IsData(Header[k]) {
      if k == 0 { HeaderLine0IsData(); }
      else if k == 1 { HeaderLine1IsData(); }
      else if k == 2 { HeaderLine2IsData(); }
      else { HeaderLine3IsData(); }
    }
  }

  lemma CellLinesAreData(cs: seq<CST>)
    ensures forall e :: 0 <= e < |cs| ==> IsData(CellLines(cs)[e])
  {
    forall e | 0 <= e < |cs| ensures IsData(CellLines(cs)[e]) {
      var c := cs[e];
      FirstWord(["3", ShowInt(c.id[0]), ShowInt(c.id[1]), ShowInt(c.id[2])]);
    }
  }

  lemma TypeLinesAreData(cs: seq<CST>)
    ensures forall e :: 0 <= e < |cs| ==> IsData(TypeLines(cs)[e])
  {
    assert TriangleType == "5" + "";
    FirstTokenOf("5", "");
  }

  /** A cell line the writer emits is read back as the ids it was written from. */
  lemma CellLineIds(c: CST)
    ensures CellIds(CellLine(c)) == Some(c.id)
  {
    var ts := Tokens(CellLine(c));
    CellLineWords(c);
    assert ParseInt(ts[0]).Some? by {
      ParseShowInt(3);
      assert ts[0] == ShowInt(3);
    }
    assert ParseInt(ts[1]) == Some(c.id[0]) by { ParseShowInt(c.id[0]); }
    assert ParseInt(ts[2]) == Some(c.id[1]) by { ParseShowInt(c.id[1]); }
    assert ParseInt(ts[3]) == Some(c.id[2]) by { ParseShowInt(c.id[2]); }
    var r := CellIds(CellLine(c));
    CellIdsReadsFourInts(CellLine(c));
    assert r.Some?;
    SameIds3(r.value, c.id);
  }

  /** The cells the writer emits are read back as the CSTs they were written from. */
  lemma WrittenCellsReadBack(cs: seq<CST>)
    ensures CSTsFrom(CellLines(cs), TypeLines(cs), 0) == Success(cs)
  {
    forall k | 0 <= k < |cs|
      ensures TypeLines(cs)[k] == TriangleType && CellIds(CellLines(cs)[k]) == Some(cs[k].id)
    {
      CellLineIds(cs[k]);
    }
    CSTsOfTriangles(CellLines(cs), TypeLines(cs), cs, 0);
    assert cs[0..] == cs;
  }

  /** A blank line and then a header line open a fresh section. */
  lemma RunBlankSection(s: State, header: string, body: seq<string>)
    requires !IsData(header)
    requires forall k :: 0 <= k < |body| ==> IsData(body[k])
    ensures Run(s, ["", header] + body) == State(MarkerStatus(header), Extend(s.lists, MarkerStatus(header), body))
  {
    assert ["", header] + body == [""] + ([header] + body);
    RunAppend(s, [""], [header] + body);
    RunSection(Run(s, [""]), header, body);
  }

  lemma ReadPointsBlock(g: Grid, formatPoint: Point -> string)
    requires forall n :: 0 <= n < |g.points| ==> IsData(formatPoint(g.points[n]))
    ensures Run(Start, PointsBlock(g, formatPoint)) ==
      State(PointSection, Lists(PointLines(g.points, formatPoint), [], []))
  {
    FirstWord(["POINTS", ShowInt(|g.points|), "double"]);
    var pl := PointLines(g.points, formatPoint);
    RunSection(Start, PointsHeader(g), pl);
    assert [] + pl == pl;
  }

  lemma ReadHeaderAndPoints(g: Grid, formatPoint: Point -> string)
    requires forall n :: 0 <= n < |g.points| ==> IsData(formatPoint(g.points[n]))
    ensures Run(Start, Header + PointsBlock(g, formatPoint)) ==
      State(PointSection, Lists(PointLines(g.points, formatPoint), [], []))
  {
    HeaderIsData();
    RunData(Start, Header);
    assert Run(Start, Header) == Start;
    ReadPointsBlock(g, formatPoint);
    RunAppend(Start, Header, PointsBlock(g, formatPoint));
  }

  lemma ReadCellsBlock(s: State, g: Grid)
    ensures Run(s, CellsBlock(g)) == State(CellSection, s.lists.(cells := s.lists.cells + CellLines(g.csts)))
  {
    FirstWord(["CELLS", ShowInt(g.NElements()), ShowInt(g.NElementNodes())]);
    CellLinesAreData(g.csts);
    RunBlankSection(s, CellsHeader(g), CellLines(g.csts));
  }

  lemma ReadTypesBlock(s: State, g: Grid)
    ensures Run(s, TypesBlock(g)) == State(CellTypeSection, s.lists.(cellTypes := s.lists.cellTypes + TypeLines(g.csts)))
  {
    FirstWord(["CELL_TYPES", ShowInt(g.NElements())]);
    TypeLinesAreData(g.csts);
    RunBlankSection(s, TypesHeader(g), TypeLines(g.csts));
  }

  /** The section lists the reader extracts from the writer's output. */
  lemma SplitRender(g: Grid, formatPoint: Point -> string)
    requires forall n :: 0 <= n < |g.points| ==> IsData(formatPoint(g.points[n]))
    ensures Split(Render(g, formatPoint)).lists ==
      Lists(PointLines(g.points, formatPoint), CellLines(g.csts), TypeLines(g.csts))
  {
    var hp, cb, tb := Header + PointsBlock(g, formatPoint), CellsBlock(g), TypesBlock(g);
    var pl, cl, tl := PointLines(g.points, formatPoint), CellLines(g.csts), TypeLines(g.csts);
    ReadHeaderAndPoints(g, formatPoint);
    var s1 := State(PointSection, Lists(pl, [], []));
    ReadCellsBlock(s1, g);
    assert [] + cl == cl;
    var s2 := State(CellSection, Lists(pl, cl, []));
    ReadTypesBlock(s2, g);
    assert [] + tl == tl;
    RunAppend(Start, hp, cb);
    RunAppend(Start, hp + cb, tb);
    assert Render(g, formatPoint) == hp + cb + tb;
  }

  /**
   * Reading what `Print` wrote gives one point per point written, each the
   * line the point was rendered as, and exactly the CSTs that were written,
   * in order; the other element lists are empty.
   */
  lemma RenderThenRead(g: Grid, formatPoint: Point -> string)
    requires forall n :: 0 <= n < |g.points| ==> IsData(formatPoint(g.points[n]))
    ensures ReadGrid(Render(g, formatPoint)) ==
      Success(Grid(PointsOf(PointLines(g.points, formatPoint)), g.csts, [], [], []))
  {
    SplitRender(g, formatPoint);
    WrittenCellsReadBack(g.csts);
  }

  /** The round trip keeps the number of points and the sequence of CST id triples. */
  lemma RoundTripKeepsMesh(g: Grid, formatPoint: Point -> string)
    requires forall n :: 0 <= n < |g.points| ==> IsData(formatPoint(g.points[n]))
    ensures ReadGrid(Render(g, formatPoint)).Success?
    ensures |ReadGrid(Render(g, formatPoint)).value.points| == |g.points|
    ensures ReadGrid(Render(g, formatPoint)).value.csts == g.csts
  {
    RenderThenRead(g, formatPoint);
  }

  function LineOf(p: Point): string {
    p.line
  }

  /**
   * A mesh read from a file and written back with each point as the line it
   * was read from reads back as the very same mesh.
   */
  lemma ReadWriteRead(lines: seq<string>)
    requires ReadGrid(lines).Success?
    ensures ReadGrid(Render(ReadGrid(lines).value, LineOf)) == ReadGrid(lines)
  {
    var g := ReadGrid(lines).value;
    SplitStoresOnlyData(lines);
    RenderThenRead(g, LineOf);
    assert PointsOf(PointLines(g.points, LineOf)) == g.points;
  }

  /** The driver's `Unstructured mesh(file); mesh.Print(outfile);` on the lines of the file. */
  method ReadAndSave(lines: seq<string>, formatPoint: Point -> string) returns (r: Result<seq<string>, ReadError>)
    ensures r.Failure? <==> ReadGrid(lines).Failure?
    ensures r.Success? ==> r.value == Render(ReadGrid(lines).value, formatPoint)
    ensures r.Success? && (forall p :: IsData(formatPoint(p))) ==>
      ReadGrid(r.value).Success? &&
      |ReadGrid(r.value).value.points| == |ReadGrid(lines).value.points| &&
      ReadGrid(r.value).value.csts == ReadGrid(lines).value.csts
  {
    var m := Unstructured.Read(lines);
    if m.Failure? {
      return Failure(m.error);
    }
    var out := m.value.Print(formatPoint);
    ghost var g := m.value.Data();
    if forall n :: 0 <= n < |g.points| ==> IsData(formatPoint(g.points[n])) {
      RoundTripKeepsMesh(g, formatPoint);
    }
    return Success(out);
  }
}
