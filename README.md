# Unstructured mesh: legacy-VTK reader and writer

This project models `Mesh::Unstructured`, the finite-element mesh class of
the solver. The class reads an ASCII legacy-VTK unstructured grid and writes
one back out. The model covers:

- **The section splitter.** The reading constructor walks the lines of the
  file. It remembers which section it is in: none, `POINTS`, `CELLS` or
  `CELL_TYPES`. A blank line ends the current section. A line whose first
  word is one of the three keywords opens that section. Every other line is
  appended to the list of the current section, and is dropped outside one
  (`Sections.Split`, and the loop `Sections.SplitSections`).
- **Cell decoding.** The point lines become the mesh's points, in order.
  Each cell whose type line is exactly `5` (a VTK triangle) becomes a CST
  holding the three node ids of its cell line. The first word of that line,
  the node count, is read and dropped (`Mesh.ReadGrid`, and the loops
  `Mesh.ReadPoints` and `Mesh.ReadCSTs`).
- **The writer.** `Print` writes:
  - the four fixed header lines;
  - the `POINTS` section;
  - a blank line and the `CELLS` section, with one `3 i j k` line per CST;
  - a blank line and the `CELL_TYPES` section, with one `5` per CST.

  `Mesh.Render` is the specification, and `Mesh.Unstructured.Print` is the
  method with its three loops.
- **The counts.** `size()` and `nPoints()` both return twice the number of
  points, exactly as the source computes them. `nElements()` returns the
  number of cells. `nElementNodes()` returns, for every cell, its leading
  count plus its ids.

A file is modelled as the sequence of its lines. The C++ stream operations
are modelled in module `Text`:

- `ss >> word` splits a line into whitespace-separated words, with
  whitespace as the C locale's `isspace` defines it.
- `in >> n` reads a 32-bit `int`: an optional sign, then decimal digits
  whose value fits the type. Anything else is a failure.
- `out << n` writes an `int` in decimal.

The key property is the driver's read-then-save sequence
(`src/main.cpp:147-148`). Take a mesh read from a file and write it out.
Reading the output back succeeds, gives back one point per point, and gives
back the same CSTs with the same node ids in the same order
(`RoundTrip.RenderThenRead`, `RoundTrip.ReadAndSave`). If the points are
written as the lines they were read from, the second read gives exactly the
mesh of the first (`RoundTrip.ReadWriteRead`).

Modules, one file each:

- `Wrappers`: Option and Result.
- `Text`: words, and `int` reading and writing.
- `Sections`: the status machine.
- `Elements`: the element records.
- `Mesh`: the grid value, the reader, the writer and the class itself.
- `RoundTrip`: the write-then-read lemmas and the driver's step.

## Model

| member | source | states |
|---|---|---|
| Sections.HeaderStatus | src/Mesh/Unstructured.H:54-56 | A first word opens a section exactly when it is `POINTS`, `CELLS` or `CELL_TYPES`. `POINTS` opens the point section, `CELLS` the cell section and `CELL_TYPES` the cell-type section. It never opens the "no section" status. |
| Sections.Extend | src/Mesh/Unstructured.H:58-60 | A stored line goes to the list of the current section only, and the other two lists are unchanged. Outside a section nothing is kept. |
| Sections.SplitSections | src/Mesh/Unstructured.H:43-61 | The `getline` loop with its `mystatus` and `continue`s yields exactly the three lists of the line-by-line specification `Split`. |
| Sections.RunAppend | src/Mesh/Unstructured.H:48-61 | Reading two runs of lines in a row is reading the second from the state the first left. |
| Sections.RunData | src/Mesh/Unstructured.H:58-60 | Data lines keep the status and are appended, in order, to the current section's list. |
| Sections.RunSection | src/Mesh/Unstructured.H:48-61 | A blank or header line followed by data lines switches to the status it names. The data lines are then appended to that section's list. |
| Sections.StatusAfterLastMarker | src/Mesh/Unstructured.H:50-56 | The status after a file is the one named by its last blank or header line. |
| Sections.NoMarkerKeepsNothing | src/Mesh/Unstructured.H:44-60 | Until the first blank or header line the reader is in no section and stores nothing. |
| Sections.LineRouting | src/Mesh/Unstructured.H:50-60 | Line i routes as follows. A data line is appended to exactly the list of the status before it, or to none outside a section. A blank or header line is stored nowhere and sets the status it names. |
| Sections.SplitStoresOnlyData | src/Mesh/Unstructured.H:50-60 | No stored line is blank, and no stored line starts with a section keyword. |
| Text.RunLength | src/Mesh/Unstructured.H:51-53 | The word at the front of a line is the longest run of non-whitespace characters. |
| Text.TokensAreWords | src/Mesh/Unstructured.H:51-53 | Every extracted word is non-empty and holds no whitespace. |
| Text.FirstTokenIsFirstWord | src/Mesh/Unstructured.H:51-53 | One `ss >> first` reads the first of the words that successive extractions read. It reads "" on a line of whitespace only. |
| Text.FirstTokenOf | src/Mesh/Unstructured.H:51-53 | A word followed by whitespace, or by nothing, is read back as that word. |
| Text.TokensOfUnwords | src/Mesh/Unstructured.H:144 | A line written as words joined by single spaces is read back as exactly those words. |
| Text.ShowInt | src/Mesh/Unstructured.H:144 | `out << n` writes one word. |
| Text.ParseShowInt | src/Mesh/Unstructured.H:96 | Reading back a written `int` gives the same value. |
| Mesh.PointsOf | src/Mesh/Unstructured.H:68-74 | One point per point line, in file order. |
| Mesh.ReadPoints | src/Mesh/Unstructured.H:68-74 | The point loop builds exactly `PointsOf` of the point lines. |
| Mesh.ReadIntsSucceedsOnInts | src/Mesh/Unstructured.H:96 | k successive `>>` extractions succeed exactly when the first k words are ints. They then give those words' values in order. |
| Mesh.CellIdsReadsFourInts | src/Mesh/Unstructured.H:86-96 | A cell line is read exactly when its first four words are ints. Its ids are then words 1 to 3, and the leading count is dropped. |
| Mesh.ReadCSTs | src/Mesh/Unstructured.H:77-100 | The cell loop gives the CST list of the specification `CSTsFrom`, or its failure at the same cell. |
| Mesh.TriangleIndices | src/Mesh/Unstructured.H:83 | Exactly the indices of the type lines equal to `5`, in increasing order. |
| Mesh.CSTsFollowTriangles | src/Mesh/Unstructured.H:77-100 | A successful read keeps one CST per type-5 cell and no other, in cell order. Each CST holds the ids of its own cell line. |
| Mesh.CSTsOfTriangles | src/Mesh/Unstructured.H:77-100 | Cells that are all readable type-5 cells are read as exactly the CSTs they spell. |
| Mesh.CSTsFailAtFirstMalformed | src/Mesh/Unstructured.H:83-96 | Reading the cells fails iff some type-5 cell line cannot be read. The error then names the first such cell. |
| Mesh.ReadGridOutcome | src/Mesh/Unstructured.H:63-100 | A read succeeds iff the numbers of cell and cell-type lines agree and every type-5 cell can be read. Unequal numbers fail with both counts. An unreadable cell fails with the error `CSTsFrom` gives. A success holds `PointsOf` the point lines, the CSTs of the cells, and empty Q4, LST and Q9 lists. |
| Mesh.CellLineWords | src/Mesh/Unstructured.H:144 | A written cell line reads as the words `3`, id[0], id[1] and id[2]. |
| Mesh.PointsBlockLayout | src/Mesh/Unstructured.H:129-131 | The POINTS section is its header, then one line per point in order. The header's words are `POINTS`, the number of points and `double`. `size()` and `nPoints()` are both twice that number. |
| Mesh.CellsBlockLayout | src/Mesh/Unstructured.H:134-145 | The CELLS section is a blank line, then a header with `CELLS`, `nElements()` and `nElementNodes()`. One cell line per CST follows, in order. |
| Mesh.TypesBlockLayout | src/Mesh/Unstructured.H:158-163 | The CELL_TYPES section is a blank line, then a header with `CELL_TYPES` and `nElements()`. A `5` follows for every CST. |
| Mesh.RenderLayout | src/Mesh/Unstructured.H:122-163 | The output is the four header lines, then the three sections in order, at the positions their sizes give. |
| Mesh.CellLinesTokenCount | src/Mesh/Unstructured.H:138-145 | The written cell lines hold four integers per CST. |
| Mesh.CellsHeaderCounts | src/Mesh/Unstructured.H:184-192 | For a mesh of CSTs only, `nElements()` is the number of cell lines and of type lines. `nElementNodes()` is the number of integers on the cell lines. |
| Mesh.WritePointLines | src/Mesh/Unstructured.H:130-131 | The point loop appends one line per point, in order. |
| Mesh.WriteCellLines | src/Mesh/Unstructured.H:138-145 | The CST loop appends one cell line per CST, in order. |
| Mesh.WriteTypeLines | src/Mesh/Unstructured.H:162-163 | The type loop appends one `5` per CST. |
| Mesh.Unstructured.constructor | src/Mesh/Unstructured.H:20-21 | The default constructor gives an empty mesh. |
| Mesh.Unstructured.Read | src/Mesh/Unstructured.H:23-110 | The reading constructor succeeds exactly when `ReadGrid` does. It then gives a fresh mesh holding that grid. Otherwise it fails with the same error. |
| Mesh.Unstructured.Print | src/Mesh/Unstructured.H:112-172 | The writer emits exactly `Render` of the mesh. |
| RoundTrip.HeaderIsData | src/Mesh/Unstructured.H:123-126 | The four header lines are neither blank nor section headers, so the reader drops them. |
| RoundTrip.CellLinesAreData | src/Mesh/Unstructured.H:144 | Written cell lines are stored by the reader, not taken as markers. |
| RoundTrip.TypeLinesAreData | src/Mesh/Unstructured.H:163 | Written type lines are stored by the reader, not taken as markers. |
| RoundTrip.CellLineIds | src/Mesh/Unstructured.H:144 | A written cell line is read back as the ids it was written from. |
| RoundTrip.WrittenCellsReadBack | src/Mesh/Unstructured.H:138-163 | The written cell and type lines are decoded as exactly the written CSTs. |
| RoundTrip.RunBlankSection | src/Mesh/Unstructured.H:134-135 | A blank line, a header and data lines open the header's section and fill it with the data lines. |
| RoundTrip.ReadPointsBlock | src/Mesh/Unstructured.H:129-131 | The written POINTS section is read into the point list. |
| RoundTrip.ReadHeaderAndPoints | src/Mesh/Unstructured.H:123-131 | The header and the POINTS section leave the reader in the point section, holding exactly the written point lines. |
| RoundTrip.ReadCellsBlock | src/Mesh/Unstructured.H:134-145 | The written CELLS section adds exactly the cell lines to the cell list. |
| RoundTrip.ReadTypesBlock | src/Mesh/Unstructured.H:158-163 | The written CELL_TYPES section adds exactly the type lines to the type list. |
| RoundTrip.SplitRender | src/Mesh/Unstructured.H:122-163 | The splitter finds in the output exactly the written point, cell and type lines. |
| RoundTrip.RenderThenRead | src/Mesh/Unstructured.H:112-172 | Reading the output succeeds. It gives one point per point written and the same CSTs in order, with empty Q4, LST and Q9 lists. |
| RoundTrip.RoundTripKeepsMesh | src/Mesh/Unstructured.H:112-172 | The round trip succeeds and keeps the number of points and the CST id triples. |
| RoundTrip.ReadWriteRead | src/Mesh/Unstructured.H:23-172 | A mesh read and then written with each point as its own line reads back as the very same mesh. |
| RoundTrip.ReadAndSave | src/main.cpp:147-148 | Read-then-save fails exactly when the read fails. It otherwise writes `Render` of the mesh read, and the saved file reads back with the same point count and the same CSTs. |

## Left out

- File handling is not modelled. This covers the existence check and its `runtime_error` (`src/Mesh/Unstructured.H:35-36`), `ifstream`, `getline` and `ofstream`. The reader takes the file as its lines and the writer returns its lines.
- Point coordinates are not parsed. The source reads two `double`s per point line (`in >> Point(d)`) and writes them through Eigen with a ` 0.0` z column. Floating-point parsing and formatting are out of scope. A point is the line it was read from. The writer turns a point into text with a `formatPoint` parameter. The round-trip lemmas require that this text is a data line.
- The Q4, LST and Q9 readers and writers are empty TODO blocks in the source. Reading fills no such lists, and `Print` writes no lines for them, as in the source. `nElements()` and `nElementNodes()` still count them. `Mesh.CellsHeaderCounts` therefore requires those lists to be empty.
- Mesh.CellIds: a type-5 cell line whose first four words are not all ints is a read failure (`MalformedCell`). The source sets the stream's failbit and keeps a CST with unspecified ids. A word with a valid numeric prefix (`12abc`) also counts as not an int, where the stream would take the prefix.
- Mesh.Unstructured.Read: the `assert` on the sizes of the two cell lists is a `CellCountMismatch` failure rather than an abort.
- The counts use unbounded integers. The width of `size_t`, and of the `int` that `size()` and the other count helpers return, is not modelled. Neither is overflow in them.
- Element construction (`Element::CST<MODEL>(Points, id)`) is modelled only as the id triple the element keeps and returns through `getid()`. The element's copy of the points, its shape functions and the `MODEL` template parameter are not part of this model.
- The base class in `Mesh/Mesh.H` is not part of this model. Neither is the element and model unit-test code (`src/Element/Test.H`, `src/Model/Test.H`), nor the driver's console output. The driver reads and saves the Q4, LST and Q9 meshes the same way, which the same `RoundTrip.ReadAndSave` covers.
