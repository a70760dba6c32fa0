/**
 * The filling of the "Opmetingsaanvraag" worksheet in Datahandler.py: the header answers go
 * to six fixed cells, the element counts to nineteen cells of column E.
 *
 * A worksheet is the map from a cell name to the value written there; the template's own
 * cells are whatever the map holds before writing.
 */
module Datahandler {
  import opened Elementen

  datatype CellValue = Text(s: string) | Number(n: int)

  type Sheet = map<string, CellValue>

  /** `CELL_MAPPING`: the cell of the i-th header line, counted from 1. */
  const CellMapping: map<int, string> := map[1 := "C6", 2 := "C7", 3 := "C9", 4 := "C10", 5 := "D12", 6 := "G6"]

  const HeaderCells: set<string> := {"C6", "C7", "C9", "C10", "D12", "G6"}

  /** The cells the first `n` header lines go to. */
  function Placed(n: int): set<string>
  {
    set i | 1 <= i <= n && i in CellMapping :: CellMapping[i]
  }

  /** Distinct header lines go to distinct cells, all of them header cells. */
  lemma CellMappingInjective()
    ensures forall i, j :: i in CellMapping && j in CellMapping && i != j ==> CellMapping[i] != CellMapping[j]
    ensures forall i :: i in CellMapping ==> CellMapping[i] in HeaderCells
    ensures forall i :: i in CellMapping <==> 1 <= i <= 6
  {
  }

  /** The sheet after writing header line k to `CELL_MAPPING[k]` for each k in turn. */
  function HeaderSheet(ws: Sheet, data: seq<string>): (r: Sheet)
    ensures ws.Keys <= r.Keys <= ws.Keys + HeaderCells
    decreases |data|
  {
    if data == [] then ws
    else
      var n := |data|;
      var prev := HeaderSheet(ws, data[..n - 1]);
      if n in CellMapping then prev[CellMapping[n] := Text(data[n - 1])] else prev
  }

  /** `_write_header`. */
  method WriteHeader(ws: Sheet, data: seq<string>) returns (r: Sheet)
    ensures r == HeaderSheet(ws, data)
  {
    r := ws;
    for i := 1 to |data| + 1
      invariant r == HeaderSheet(ws, data[..i - 1])
    {
      assert data[..i][..i - 1] == data[..i - 1];
      if i in CellMapping {
        r := r[CellMapping[i] := Text(data[i - 1])];
      }
    }
    assert data[..|data|] == data;
  }

  /** One more header line adds at most its own cell. */
  lemma PlacedStep(n: int)
    requires n >= 1
    ensures Placed(n) == Placed(n - 1) + (if n in CellMapping then {CellMapping[n]} else {})
  {
  }

  lemma {:induction false} HeaderSheetKeys(ws: Sheet, data: seq<string>)
    ensures HeaderSheet(ws, data).Keys == ws.Keys + Placed(|data|)
    decreases |data|
  {
    if data != [] {
      HeaderSheetKeys(ws, data[..|data| - 1]);
      PlacedStep(|data|);
    }
  }

  lemma {:induction false} HeaderSheetLines(ws: Sheet, data: seq<string>)
    ensures forall i :: 1 <= i <= |data| && i in CellMapping ==>
      CellMapping[i] in HeaderSheet(ws, data) && HeaderSheet(ws, data)[CellMapping[i]] == Text(data[i - 1])
    decreases |data|
  {
    if data != [] {
      var n := |data|;
      var init := data[..n - 1];
      HeaderSheetLines(ws, init);
      CellMappingInjective();
      assert forall j :: 0 <= j < n - 1 ==> init[j] == data[j];
    }
  }

  lemma {:induction false} HeaderSheetKeeps(ws: Sheet, data: seq<string>)
    ensures forall c :: c in ws && c !in Placed(|data|) ==> c in HeaderSheet(ws, data) && HeaderSheet(ws, data)[c] == ws[c]
    decreases |data|
  {
    if data != [] {
      HeaderSheetKeeps(ws, data[..|data| - 1]);
      PlacedStep(|data|);
    }
  }

  /** Header line i lands in `CELL_MAPPING[i]` for the first six lines; no other cell changes. */
  lemma HeaderSheetSpec(ws: Sheet, data: seq<string>)
    ensures HeaderSheet(ws, data).Keys == ws.Keys + Placed(|data|)
    ensures forall i :: 1 <= i <= |data| && i in CellMapping ==>
      CellMapping[i] in HeaderSheet(ws, data) && HeaderSheet(ws, data)[CellMapping[i]] == Text(data[i - 1])
    ensures forall c :: c in ws && c !in Placed(|data|) ==> c in HeaderSheet(ws, data) && HeaderSheet(ws, data)[c] == ws[c]
  {
    HeaderSheetKeys(ws, data);
    HeaderSheetLines(ws, data);
    HeaderSheetKeeps(ws, data);
  }

  /** Only the six header cells are ever written. */
  lemma PlacedInHeaderCells(n: int)
    ensures Placed(n) <= HeaderCells
    ensures n >= 6 ==> Placed(n) == HeaderCells
  {
    CellMappingInjective();
    if n >= 6 {
      assert CellMapping[1] in Placed(n) && CellMapping[2] in Placed(n) && CellMapping[3] in Placed(n);
      assert CellMapping[4] in Placed(n) && CellMapping[5] in Placed(n) && CellMapping[6] in Placed(n);
    }
  }

  /** Header lines after the sixth are ignored. */
  lemma {:induction false} HeaderIgnoresExtraLines(ws: Sheet, data: seq<string>)
    requires |data| > 6
    ensures HeaderSheet(ws, data) == HeaderSheet(ws, data[..6])
    decreases |data|
  {
    var init := data[..|data| - 1];
    assert !(|data| in CellMapping);
    if |init| > 6 {
      HeaderIgnoresExtraLines(ws, init);
      assert init[..6] == data[..6];
    } else {
      assert init == data[..6];
    }
  }

  /** The cells of `_collect_counts`, in the order of the dictionary literal. */
  const CountCells: seq<string> :=
    ["E15", "E16", "E17", "E18", "E19", "E20", "E21", "E22", "E23", "E24", "E25", "E26", "E27",
     "E30", "E33", "E34", "E35", "E37", "E38"]

  /** The counter whose result goes to the cell at the same position. */
  const CountedRules: seq<Rule> :=
    [Onderkasten, Hangkasten, Plinten, Kroonlijsten, Lichtlijsten, Werkbladen, SpoelbakKraan,
     Kookplaat, Dampkap, Oven, Microgolfoven, Koelkast, Vaatwasser, Passtukken, DeurVaatwasser,
     Achterwand, ZijSteunwand, Andere, Verlichting]

  /** What each counter gives on the workbook, in the order of the dictionary literal. */
  function CountValues(cells: Cells): (r: seq<CellValue>)
    ensures |r| == |CountedRules|
    ensures forall i :: 0 <= i < |r| ==> r[i] == Number(Count(CountedRules[i], cells))
  {
    seq(|CountedRules|, i requires 0 <= i < |CountedRules| => Number(Count(CountedRules[i], cells)))
  }

  /** The sheet holding the first `k` values, each in the cell of the same position. */
  function Fill(names: seq<string>, values: seq<CellValue>, k: nat): Sheet
    requires k <= |names| && k <= |values|
  {
    if k == 0 then map[] else Fill(names, values, k - 1)[names[k - 1] := values[k - 1]]
  }

  predicate Distinct(names: seq<string>)
  {
    forall i, j :: 0 <= i < j < |names| ==> names[i] != names[j]
  }

  /** The first `k` entries fill exactly the first `k` cells. */
  lemma {:induction false} FillKeys(names: seq<string>, values: seq<CellValue>, k: nat)
    requires k <= |names| && k <= |values|
    ensures forall c :: c in Fill(names, values, k) <==> c in names[..k]
    decreases k
  {
    if k > 0 {
      FillKeys(names, values, k - 1);
      assert names[..k] == names[..k - 1] + [names[k - 1]];
    }
  }

  /** With distinct cells, each of the first `k` cells holds the value of its own position. */
  lemma {:induction false} FillValues(names: seq<string>, values: seq<CellValue>, k: nat)
    requires k <= |names| && k <= |values|
    requires Distinct(names)
    ensures forall i :: 0 <= i < k ==> names[i] in Fill(names, values, k) && Fill(names, values, k)[names[i]] == values[i]
    decreases k
  {
    if k > 0 {
      FillValues(names, values, k - 1);
      assert forall i :: 0 <= i < k - 1 ==> names[i] != names[k - 1];
    }
  }

  /** `_collect_counts` on a workbook. */
  function CollectCounts(cells: Cells): (r: Sheet)
    ensures forall c :: c in r <==> c in CountCells
  {
    FillKeys(CountCells, CountValues(cells), |CountCells|);
    assert CountCells[..|CountCells|] == CountCells;
    Fill(CountCells, CountValues(cells), |CountCells|)
  }

  /** The count cells are nineteen distinct cells, none of them a header cell. */
  lemma CountCellsDistinct()
    ensures |CountCells| == |CountedRules| == 19
    ensures Distinct(CountCells)
    ensures forall i :: 0 <= i < |CountCells| ==> CountCells[i] !in HeaderCells
  {
    forall i, j | 0 <= i < j < |CountCells|
      ensures CountCells[i] != CountCells[j]
    {
      assert CountCells[i][1..] != CountCells[j][1..];
    }
  }

  /** `_collect_counts` fills exactly the nineteen count cells. */
  lemma CollectCountsKeys(cells: Cells)
    ensures forall c :: c in CollectCounts(cells) <==> c in CountCells
  {
    FillKeys(CountCells, CountValues(cells), |CountCells|);
    assert CountCells[..|CountCells|] == CountCells;
  }

  /** Each count cell holds its own counter's result. */
  lemma CollectCountsValues(cells: Cells)
    ensures forall i :: 0 <= i < |CountCells| ==>
      CountCells[i] in CollectCounts(cells) && CollectCounts(cells)[CountCells[i]] == Number(Count(CountedRules[i], cells))
  {
    CountCellsDistinct();
    FillValues(CountCells, CountValues(cells), |CountCells|);
  }

  /** `_collect_counts` leaves the header cells alone. */
  lemma CollectCountsAvoidsHeader(cells: Cells)
    ensures CollectCounts(cells).Keys !! HeaderCells
  {
    CountCellsDistinct();
    CollectCountsKeys(cells);
  }

  /** Nor does it write E28, E29, E31, E32 or E36, which the template keeps. */
  lemma CollectCountsGaps(cells: Cells)
    ensures forall c :: c in ["E28", "E29", "E31", "E32", "E36"] ==> c !in CollectCounts(cells)
  {
    CollectCountsKeys(cells);
  }

  /** Writing cells that the header never touches commutes with writing the header. */
  lemma {:induction false} HeaderCommutes(ws: Sheet, counts: Sheet, data: seq<string>)
    requires counts.Keys !! HeaderCells
    ensures HeaderSheet(ws + counts, data) == HeaderSheet(ws, data) + counts
    decreases |data|
  {
    CellMappingInjective();
    if data != [] {
      HeaderCommutes(ws, counts, data[..|data| - 1]);
    }
  }

  /** The loop over `counts.items()`: write each value into its cell, in order. */
  method WriteCells(ws: Sheet, names: seq<string>, values: seq<CellValue>) returns (r: Sheet)
    requires |names| == |values|
    ensures r == ws + Fill(names, values, |names|)
  {
    r := ws;
    for k := 0 to |names|
      invariant r == ws + Fill(names, values, k)
    {
      r := r[names[k] := values[k]];
    }
  }

  /** `generate_opmetingsaanvraag` without the file: the header, then every count in turn. */
  method Generate(template: Sheet, header: seq<string>, cells: Cells) returns (ws: Sheet)
    ensures ws == HeaderSheet(template, header) + CollectCounts(cells)
  {
    ws := WriteHeader(template, header);
    ws := WriteCells(ws, CountCells, CountValues(cells));
  }

  /** So the order of the two writes does not matter: the counts written first and the header
      after give the same sheet. */
  lemma WriteOrderIrrelevant(template: Sheet, header: seq<string>, cells: Cells)
    ensures HeaderSheet(template + CollectCounts(cells), header) == HeaderSheet(template, header) + CollectCounts(cells)
  {
    CollectCountsAvoidsHeader(cells);
    HeaderCommutes(template, CollectCounts(cells), header);
  }

  /** The stubbed header of the unit test: its first line is in C6. */
  lemma HeaderExample()
    ensures var sheet := HeaderSheet(map[], ["a", "b", "c", "d", "e", "f"]);
      "C6" in sheet && sheet["C6"] == Text("a")
  {
    HeaderSheetSpec(map[], ["a", "b", "c", "d", "e", "f"]);
    assert CellMapping[1] in Placed(6);
  }
}
