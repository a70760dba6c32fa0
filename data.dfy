/**
 * The order-text normaliser of Data.py: the text extracted from the order PDF is split
 * into lines, word-wrapped continuation lines are merged back onto the line they continue,
 * boilerplate lines are dropped, and everything after the total-price line is cut off.
 * The surviving lines are written, one per row, to column A of a fresh worksheet.
 *
 * The PDF extraction and the workbook file are outside the model: the input is the
 * extracted text, the output a map from (row, column) to the written value.
 */
module OrderText {
  import opened Wrappers
  import opened Text

  const NettoMarker := "Netto afmetingen :"
  const LineMarker := "Line n"
  const TotalMarker := "Totale prijs van uw ingerichte keuken incl. BTW:"

  /** `next(...)` found no total-price line and raised StopIteration. */
  datatype NormaliseError = NoTotalPriceLine

  /** A raw line that continues the previous one: non-empty, starting with a lowercase letter. */
  predicate IsContinuation(line: string)
  {
    |line| > 0 && IsLower(line[0])
  }

  /** The logical lines after merging the raw lines, in the order the merge loop builds them. */
  function Merged(raw: seq<string>): (r: seq<string>)
    requires |raw| > 0
    ensures 0 < |r| <= |raw|
  {
    MergedFirst(raw, |raw|)
  }

  /** The logical lines after merging the first `n` raw lines. */
  function MergedFirst(raw: seq<string>, n: nat): (r: seq<string>)
    requires 0 < n <= |raw|
    ensures 0 < |r| <= n
    decreases n
  {
    if n == 1 then [raw[0]]
    else
      var prev := MergedFirst(raw, n - 1);
      var line := raw[n - 1];
      if IsContinuation(line) then prev[..|prev| - 1] + [prev[|prev| - 1] + " " + line]
      else prev + [line]
  }

  /** The merge loop of Data.py: `new_lines[-1] += ' ' + line` or `new_lines.append(line)`. */
  method MergeContinuations(raw: seq<string>) returns (newLines: seq<string>)
    requires |raw| > 0
    ensures newLines == Merged(raw)
  {
    newLines := [raw[0]];
    for i := 1 to |raw|
      invariant |newLines| > 0
      invariant newLines == MergedFirst(raw, i)
    {
      var line := raw[i];
      if |line| > 0 && IsLower(line[0]) {
        newLines := newLines[..|newLines| - 1] + [newLines[|newLines| - 1] + " " + line];
      } else {
        newLines := newLines + [line];
      }
    }
  }

  /** How many of `lines` start a new logical line. */
  function Starters(lines: seq<string>): nat
    decreases |lines|
  {
    if lines == [] then 0
    else Starters(lines[..|lines| - 1]) + (if IsContinuation(lines[|lines| - 1]) then 0 else 1)
  }

  /** The first raw line opens the first logical line; every later raw line that is not
      a continuation opens one more. */
  lemma MergedCount(raw: seq<string>)
    requires |raw| > 0
    ensures |Merged(raw)| == 1 + Starters(raw[1..])
  {
    MergedFirstCount(raw, |raw|);
    assert raw[1..|raw|] == raw[1..];
  }

  lemma {:induction false} MergedFirstCount(raw: seq<string>, n: nat)
    requires 0 < n <= |raw|
    ensures |MergedFirst(raw, n)| == 1 + Starters(raw[1..n])
    decreases n
  {
    if n > 1 {
      MergedFirstCount(raw, n - 1);
      assert raw[1..n][..n - 2] == raw[1..n - 1];
    }
  }

  /** The words of one group of raw lines joined by single spaces. */
  function JoinWords(group: seq<string>): string
    requires |group| > 0
  {
    JoinFirst(group, |group|)
  }

  /** The first `n` words of `group` joined by single spaces. */
  function JoinFirst(group: seq<string>, n: nat): string
    requires 0 < n <= |group|
    decreases n
  {
    if n == 1 then group[0] else JoinFirst(group, n - 1) + " " + group[n - 1]
  }

  /** Joining the first `n` words looks at those words only. */
  lemma {:induction false} JoinFirstPrefix(x: seq<string>, y: seq<string>, n: nat)
    requires 0 < n <= |x| && n <= |y|
    requires forall k :: 0 <= k < n ==> x[k] == y[k]
    ensures JoinFirst(x, n) == JoinFirst(y, n)
    decreases n
  {
    if n > 1 {
      JoinFirstPrefix(x, y, n - 1);
    }
  }

  /** Joining one more word at the end adds a space and the word. */
  lemma {:induction false} JoinSnoc(pieces: seq<string>, x: string)
    requires |pieces| >= 1
    ensures Join(pieces + [x], ' ') == Join(pieces, ' ') + " " + x
    decreases |pieces|
  {
    if |pieces| == 1 {
      assert (pieces + [x])[1..] == [x];
    } else {
      JoinSnoc(pieces[1..], x);
      assert (pieces + [x])[1..] == pieces[1..] + [x];
    }
  }

  /** Joining the first `n` words is `" ".join` of them. */
  lemma {:induction false} JoinFirstIsJoin(group: seq<string>, n: nat)
    requires 0 < n <= |group|
    ensures JoinFirst(group, n) == Join(group[..n], ' ')
    decreases n
  {
    if n == 1 {
      assert group[..1] == [group[0]];
    } else {
      JoinFirstIsJoin(group, n - 1);
      JoinSnoc(group[..n - 1], group[n - 1]);
      assert group[..n - 1] + [group[n - 1]] == group[..n];
    }
  }

  /** The words of a group joined by spaces are `" ".join(group)`. */
  lemma JoinWordsIsJoin(group: seq<string>)
    requires |group| > 0
    ensures JoinWords(group) == Join(group, ' ')
  {
    JoinFirstIsJoin(group, |group|);
    assert group[..|group|] == group;
  }

  function Flatten(groups: seq<seq<string>>): seq<string>
    decreases |groups|
  {
    if groups == [] then [] else Flatten(groups[..|groups| - 1]) + groups[|groups| - 1]
  }

  /** `groups` cuts `raw` into consecutive non-empty runs, each a line that is not a
      continuation (or the very first line) followed by continuation lines only. */
  predicate IsGrouping(raw: seq<string>, groups: seq<seq<string>>)
  {
    && Flatten(groups) == raw
    && (forall k :: 0 <= k < |groups| ==> |groups[k]| > 0)
    && (forall k, j :: 0 <= k < |groups| && 0 < j < |groups[k]| ==> IsContinuation(groups[k][j]))
    && (forall k :: 0 < k < |groups| ==> !IsContinuation(groups[k][0]))
  }

  /** `lines` holds the groups, each joined by single spaces, in order. */
  predicate JoinsGroups(groups: seq<seq<string>>, lines: seq<string>)
  {
    && |groups| == |lines|
    && forall k :: 0 <= k < |lines| ==> |groups[k]| > 0 && lines[k] == JoinWords(groups[k])
  }

  /** The logical lines of `raw` are the joined groups of `groups`, a grouping of `raw`. */
  predicate MergesGroups(raw: seq<string>, groups: seq<seq<string>>)
    requires |raw| > 0
  {
    IsGrouping(raw, groups) && JoinsGroups(groups, Merged(raw))
  }

  lemma FlattenSnoc(groups: seq<seq<string>>, g: seq<string>)
    ensures Flatten(groups + [g]) == Flatten(groups) + g
  {
    assert (groups + [g])[..|groups|] == groups;
  }

  /** A continuation line extends the last group. */
  lemma GroupingExtendLast(raw: seq<string>, groups: seq<seq<string>>, line: string)
    requires IsGrouping(raw, groups) && |groups| > 0
    requires IsContinuation(line)
    ensures var n := |groups|; IsGrouping(raw + [line], groups[..n - 1] + [groups[n - 1] + [line]])
  {
    var n := |groups|;
    var front := groups[..n - 1];
    assert groups == front + [groups[n - 1]];
    FlattenSnoc(front, groups[n - 1]);
    FlattenSnoc(front, groups[n - 1] + [line]);
  }

  /** Any other line opens a group of its own. */
  lemma GroupingAddNew(raw: seq<string>, groups: seq<seq<string>>, line: string)
    requires IsGrouping(raw, groups)
    requires !IsContinuation(line)
    ensures IsGrouping(raw + [line], groups + [[line]])
  {
    FlattenSnoc(groups, [line]);
  }

  /** Appending a line to the last group appends it, after a space, to the last line. */
  lemma JoinsExtendLast(groups: seq<seq<string>>, lines: seq<string>, line: string)
    requires JoinsGroups(groups, lines) && |groups| > 0
    ensures var n := |groups|;
      JoinsGroups(groups[..n - 1] + [groups[n - 1] + [line]], lines[..n - 1] + [lines[n - 1] + " " + line])
  {
    var n := |groups|;
    var g := groups[n - 1];
    JoinFirstPrefix(g + [line], g, |g|);
    assert JoinWords(g + [line]) == JoinWords(g) + " " + line;
  }

  /** A new one-line group is a new line. */
  lemma JoinsAddNew(groups: seq<seq<string>>, lines: seq<string>, line: string)
    requires JoinsGroups(groups, lines)
    ensures JoinsGroups(groups + [[line]], lines + [line])
  {
  }

  /** The raw lines gathered into the runs that the merge loop joins. */
  function Grouped(raw: seq<string>): seq<seq<string>>
    requires |raw| > 0
  {
    GroupedFirst(raw, |raw|)
  }

  /** The runs of the first `n` raw lines. */
  function GroupedFirst(raw: seq<string>, n: nat): (groups: seq<seq<string>>)
    requires 0 < n <= |raw|
    ensures |groups| > 0
    decreases n
  {
    if n == 1 then [[raw[0]]]
    else
      var gs := GroupedFirst(raw, n - 1);
      var line := raw[n - 1];
      if IsContinuation(line) then gs[..|gs| - 1] + [gs[|gs| - 1] + [line]] else gs + [[line]]
  }

  /** Merging loses nothing and reorders nothing: every raw line lands in exactly one
      logical line, the logical lines are the groups of the raw lines in order, and each
      group is its lines joined by single spaces. */
  lemma MergedIsGrouping(raw: seq<string>)
    requires |raw| > 0
    ensures MergesGroups(raw, Grouped(raw))
  {
    MergesFirst(raw, |raw|);
    assert raw[..|raw|] == raw;
  }

  lemma {:induction false} MergesFirst(raw: seq<string>, n: nat)
    requires 0 < n <= |raw|
    ensures IsGrouping(raw[..n], GroupedFirst(raw, n))
    ensures JoinsGroups(GroupedFirst(raw, n), MergedFirst(raw, n))
    decreases n
  {
    if n == 1 {
      MergesOne(raw);
    } else {
      MergesFirst(raw, n - 1);
      GroupingStep(raw, n - 1);
      JoinsStep(raw, n - 1);
    }
  }

  /** The first raw line on its own is one group and one logical line. */
  lemma MergesOne(raw: seq<string>)
    requires 0 < |raw|
    ensures IsGrouping(raw[..1], GroupedFirst(raw, 1))
    ensures JoinsGroups(GroupedFirst(raw, 1), MergedFirst(raw, 1))
  {
    var first := raw[0];
    assert GroupedFirst(raw, 1) == [[first]];
    assert MergedFirst(raw, 1) == [first];
    assert raw[..1] == [first];
    OneGroup(first);
  }

  lemma OneGroup(line: string)
    ensures IsGrouping([line], [[line]])
    ensures JoinsGroups([[line]], [line])
  {
    FlattenSnoc([], [line]);
    JoinsAddNew([], [], line);
  }

  /** One more raw line keeps the groups a grouping of the raw lines. */
  lemma GroupingStep(raw: seq<string>, n: nat)
    requires 0 < n < |raw|
    requires IsGrouping(raw[..n], GroupedFirst(raw, n))
    ensures IsGrouping(raw[..n + 1], GroupedFirst(raw, n + 1))
  {
    assert raw[..n + 1] == raw[..n] + [raw[n]];
    if IsContinuation(raw[n]) {
      GroupingExtendLast(raw[..n], GroupedFirst(raw, n), raw[n]);
    } else {
      GroupingAddNew(raw[..n], GroupedFirst(raw, n), raw[n]);
    }
  }

  /** One more raw line keeps the logical lines the joined groups. */
  lemma JoinsStep(raw: seq<string>, n: nat)
    requires 0 < n < |raw|
    requires JoinsGroups(GroupedFirst(raw, n), MergedFirst(raw, n))
    ensures JoinsGroups(GroupedFirst(raw, n + 1), MergedFirst(raw, n + 1))
  {
    if IsContinuation(raw[n]) {
      JoinsExtendLast(GroupedFirst(raw, n), MergedFirst(raw, n), raw[n]);
    } else {
      JoinsAddNew(GroupedFirst(raw, n), MergedFirst(raw, n), raw[n]);
    }
  }

  /** A `Netto afmetingen :` or `Line n` line: boilerplate, not order content. */
  predicate IsNoise(line: string)
  {
    Contains(line, NettoMarker) || Contains(line, LineMarker)
  }

  /** The filter comprehension of Data.py. */
  function DropNoise(lines: seq<string>): (r: seq<string>)
    ensures |r| <= |lines|
    decreases |lines|
  {
    if lines == [] then []
    else
      var last := lines[|lines| - 1];
      DropNoise(lines[..|lines| - 1]) + (if IsNoise(last) then [] else [last])
  }

  /** Filtering keeps exactly the lines without a boilerplate marker. */
  lemma {:induction false} DropNoiseKeeps(lines: seq<string>)
    ensures forall l :: l in DropNoise(lines) <==> l in lines && !IsNoise(l)
    decreases |lines|
  {
    if lines != [] {
      var init := lines[..|lines| - 1];
      var last := lines[|lines| - 1];
      DropNoiseKeeps(init);
      assert lines == init + [last];
    }
  }

  /** Filtering keeps the relative order of the retained lines. */
  lemma {:induction false} DropNoiseAppend(a: seq<string>, b: seq<string>)
    ensures DropNoise(a + b) == DropNoise(a) + DropNoise(b)
    decreases |b|
  {
    if b == [] {
      assert a + b == a;
    } else {
      var init := b[..|b| - 1];
      var last := b[|b| - 1];
      var ab := a + b;
      DropNoiseAppend(a, init);
      assert ab[..|ab| - 1] == a + init;
      assert ab[|ab| - 1] == last;
      var tail := if IsNoise(last) then [] else [last];
      assert DropNoise(ab) == DropNoise(a + init) + tail;
      assert DropNoise(b) == DropNoise(init) + tail;
    }
  }

  /** A logical line with a boilerplate marker in any of its raw lines is boilerplate, so the
      continuation lines merged onto a noise line are dropped together with it. */
  lemma NoiseSpreadsOverGroup(group: seq<string>, j: nat)
    requires j < |group|
    requires IsNoise(group[j])
    ensures IsNoise(JoinWords(group))
  {
    NoiseSpreadsOverFirst(group, |group|, j);
  }

  lemma {:induction false} NoiseSpreadsOverFirst(group: seq<string>, n: nat, j: nat)
    requires j < n <= |group|
    requires IsNoise(group[j])
    ensures IsNoise(JoinFirst(group, n))
    decreases n
  {
    if n > 1 {
      var last := group[n - 1];
      if j < n - 1 {
        NoiseSpreadsOverFirst(group, n - 1, j);
        var s := JoinFirst(group, n - 1);
        if Contains(s, NettoMarker) {
          ContainsExtend("", s, " " + last, NettoMarker);
        } else {
          ContainsExtend("", s, " " + last, LineMarker);
        }
        assert "" + s + (" " + last) == JoinFirst(group, n);
      } else {
        var s := JoinFirst(group, n - 1) + " ";
        if Contains(last, NettoMarker) {
          ContainsExtend(s, last, "", NettoMarker);
        } else {
          ContainsExtend(s, last, "", LineMarker);
        }
        assert s + last + "" == JoinFirst(group, n);
      }
    }
  }

  /** The line with the total price of the kitchen, which ends the order. */
  predicate IsTotalLine(line: string)
  {
    Contains(line, TotalMarker)
  }

  /** `next(i for i, line in enumerate(lines) if TotalMarker in line)`. */
  function TotalPriceIndex(lines: seq<string>): (r: Option<nat>)
    ensures r.None? <==> forall i :: 0 <= i < |lines| ==> !IsTotalLine(lines[i])
    ensures r.Some? ==> r.value < |lines| && IsTotalLine(lines[r.value])
    ensures r.Some? ==> forall i :: 0 <= i < r.value ==> !IsTotalLine(lines[i])
    decreases |lines|
  {
    if lines == [] then None
    else if IsTotalLine(lines[0]) then Some(0)
    else
      match TotalPriceIndex(lines[1..])
      case None => None
      case Some(i) => Some(i + 1)
  }

  /** `lines[:total_price_index + 1]`, or the StopIteration of `next`. */
  function Truncate(lines: seq<string>): (r: Result<seq<string>, NormaliseError>)
    ensures r.Err? <==> forall i :: 0 <= i < |lines| ==> !IsTotalLine(lines[i])
    ensures r.Ok? ==> |r.value| > 0 && r.value <= lines
    ensures r.Ok? ==> IsTotalLine(r.value[|r.value| - 1])
    ensures r.Ok? ==> forall i :: 0 <= i < |r.value| - 1 ==> !IsTotalLine(r.value[i])
  {
    match TotalPriceIndex(lines)
    case None => Err(NoTotalPriceLine)
    case Some(i) => Ok(lines[..i + 1])
  }

  /** The logical lines that survive the filter, before truncation. */
  function FilteredLines(text: string): seq<string>
  {
    DropNoise(Merged(Split(text, '\n')))
  }

  /** The whole normalisation of Data.py on the extracted text. The normalised lines are
      free of boilerplate, end with the total-price line, hold no earlier total-price line
      and are a prefix of the filtered logical lines; normalisation fails exactly when no
      filtered logical line holds the total price. */
  function Normalised(text: string): (r: Result<seq<string>, NormaliseError>)
    ensures r.Err? ==> forall i :: 0 <= i < |FilteredLines(text)| ==> !IsTotalLine(FilteredLines(text)[i])
    ensures r.Ok? ==> exists i :: 0 <= i < |FilteredLines(text)| && IsTotalLine(FilteredLines(text)[i])
    ensures r.Ok? ==> r.value <= FilteredLines(text) && |r.value| > 0
    ensures r.Ok? ==> IsTotalLine(r.value[|r.value| - 1])
    ensures r.Ok? ==> forall i :: 0 <= i < |r.value| - 1 ==> !IsTotalLine(r.value[i])
    ensures r.Ok? ==> forall i :: 0 <= i < |r.value| ==> !IsNoise(r.value[i])
  {
    var merged := Merged(Split(text, '\n'));
    DropNoiseKeeps(merged);
    var filtered := DropNoise(merged);
    assert filtered == FilteredLines(text);
    var r := Truncate(filtered);
    assert r.Ok? ==> forall i :: 0 <= i < |r.value| ==> r.value[i] in filtered;
    assert r.Ok? ==> IsTotalLine(filtered[|r.value| - 1]);
    r
  }

  /** A cell of a worksheet, both coordinates counted from 1 as openpyxl does. */
  datatype Cell = Cell(row: nat, column: nat)

  /** The loop that writes line k (counted from 1) to row k, column 1 of an empty sheet. */
  method WriteRows(lines: seq<string>) returns (ws: map<Cell, string>)
    ensures forall c :: c in ws <==> c.column == 1 && 1 <= c.row <= |lines|
    ensures forall k :: 1 <= k <= |lines| ==> Cell(k, 1) in ws && ws[Cell(k, 1)] == lines[k - 1]
  {
    ws := map[];
    for i := 0 to |lines|
      invariant forall c :: c in ws <==> c.column == 1 && 1 <= c.row <= i
      invariant forall k :: 1 <= k <= i ==> Cell(k, 1) in ws && ws[Cell(k, 1)] == lines[k - 1]
    {
      ws := ws[Cell(i + 1, 1) := lines[i]];
    }
  }

  /** Data.py from the extracted text to the written worksheet: no sheet at all when the
      total-price line is missing, otherwise exactly the normalised lines down column A. */
  method RunDataScript(text: string) returns (r: Result<map<Cell, string>, NormaliseError>)
    ensures r.Err? <==> Normalised(text).Err?
    ensures r.Ok? ==> var out := Normalised(text).value;
      && (forall c :: c in r.value <==> c.column == 1 && 1 <= c.row <= |out|)
      && (forall k :: 1 <= k <= |out| ==> r.value[Cell(k, 1)] == out[k - 1])
  {
    var raw := Split(text, '\n');
    var newLines := MergeContinuations(raw);
    var filtered := DropNoise(newLines);
    match TotalPriceIndex(filtered)
    case None =>
      r := Err(NoTotalPriceLine);
    case Some(i) =>
      var ws := WriteRows(filtered[..i + 1]);
      r := Ok(ws);
  }

  /** A lowercase-led line joins the line before it; the next capitalised line starts anew. */
  lemma MergeExample()
    ensures Merged(["Kast A", "bovenzijde", "Kast B"]) == ["Kast A bovenzijde", "Kast B"]
  {
    var raw := ["Kast A", "bovenzijde", "Kast B"];
    assert IsContinuation("bovenzijde");
    assert !IsContinuation("Kast B");
    assert MergedFirst(raw, 1) == ["Kast A"];
    assert "Kast A" + " " + "bovenzijde" == "Kast A bovenzijde";
    assert MergedFirst(raw, 2) == ["Kast A bovenzijde"];
  }

  /** A measurement line is boilerplate wherever it stands. */
  lemma NoiseExample()
    ensures IsNoise("Netto afmetingen : 600x590x560")
  {
    ContainsWitness("Netto afmetingen : 600x590x560", NettoMarker, 0);
  }

  /** Everything after the total-price line is cut off. */
  lemma TruncateExample()
    ensures var total := "Totale prijs van uw ingerichte keuken incl. BTW: 1234";
      Truncate(["Kast A", total, "trailing junk"]) == Ok(["Kast A", total])
  {
    var total := "Totale prijs van uw ingerichte keuken incl. BTW: 1234";
    ContainsWitness(total, TotalMarker, 0);
    var lines := ["Kast A", total, "trailing junk"];
    assert !IsTotalLine("Kast A");
    assert TotalPriceIndex(lines[1..]) == Some(0);
    assert lines[..2] == ["Kast A", total];
  }
}
