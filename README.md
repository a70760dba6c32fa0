# Kitchen order tooling: a Dafny model of its core

The repository turns a kitchen order, delivered as a PDF, into a measurement request
spreadsheet ("Opmetingsaanvraag"). The model covers five pieces of that pipeline:

- **Data.py**, the normaliser. It splits the PDF text into lines and glues each line
  that starts with a lower-case letter onto the line before it. It drops the noise lines
  (`Netto afmetingen :`, `Line n`) and keeps everything up to and including the first
  "Totale prijs van uw ingerichte keuken incl. BTW:" line. It then writes those lines
  down column A. Module `OrderText` (`data.dfy`).
- **Elementen.py**, the twenty `count_*` element counters. Each one scans every
  non-empty cell of the order workbook and tallies its target phrases, matched without
  regard to case. It sums the tallies and post-processes the sum: halve with at least
  one, double, or cap. The twenty functions differ only in data, so the model has:
  - one `Rule` datatype, which records the phrases, match mode, vetoes, doubled and
    skipped phrases, and policy;
  - one counting method, `CountElements`, proved against the `Count` specification;
  - the catalogue of twenty rules.
  Module `Elementen` (`elementen.dfy`).
- **ApplianceManagerFrame.py**, the appliance catalogue. Module `Appliances`
  (`appliances.dfy`) covers:
  - `Appliance.from_dict`, with `str()` and `int()` written out;
  - the loading loop that skips invalid records;
  - `ApplianceFilter`, a class with three indexes, the chained `filter` and
    `get_brands_for_category`;
  - `ShoppingCart`, a class whose `add_item` bumps a quantity in place or appends.
- **Datahandler.py**, which fills the spreadsheet. `CELL_MAPPING`, `_write_header`,
  `_collect_counts` and `generate_opmetingsaanvraag` are a header written into six
  fixed cells and nineteen counts written into column E. A worksheet is a map from cell
  names to values. Module `Datahandler` (`datahandler.dfy`).
- **GOT.py**, the answer parser. It keeps, for every line of the completion that has a
  colon, the stripped text after the first colon. Module `Got` (`got.dfy`).

Shared text operations live in module `Text` (`text.dfy`):
- lower-casing;
- substring and whole-word search;
- split and join on a character;
- whitespace strip;
- `find`.

`Option` and `Result` live in `Wrappers` (`wrappers.dfy`).

Loops in the source are methods with loop invariants. Each method is proved equal to a
specification function, and the properties are proved about that function. Examples:
- `MergeContinuations` is proved equal to `Merged`;
- `ScanCells` and `CountElements` are proved equal to `Tally` and `Count`;
- `LoadAppliances` is proved equal to `ValidAppliances`;
- `AnswersOfLines` is proved equal to `Answers`;
- `WriteHeader` is proved equal to `HeaderSheet`.

The classes `ApplianceFilter` and `ShoppingCart` keep the source's fields and update
them in `modifies` methods. A cart keeps one invariant: no two items share a code, because
`add_item` merges by code.

One lemma per `count_*` function states what that configured counter returns on every
workbook. `OnderkastenCount` and `SpoelbakKraanCount` are two examples.

Two tests build the same three appliances: an oven of 60 points, a hob of 40 and a
dishwasher of 80. For `filter(max_points=50)`, the embedded self-test of
ApplianceManagerFrame.py (lines 934-935) expects two appliances. The repository's test
file (tests/test_appliance_manager.py, line 63) expects one. The code keeps only the
40-point hob. `Appliances.FilterMaxPointsExample` proves this, which agrees with the test
file.

## Model

| member | source | states |
|---|---|---|
| Text.LowerChar | Elementen.py:25 | the result is never upper case; an upper-case ASCII letter becomes its lower-case letter (code + 32); any other character is unchanged |
| Text.Lower | Elementen.py:25 | `str.lower()` keeps the length and lower-cases every character on its own |
| Text.LowerIdempotent | Elementen.py:23-25 | lower-casing twice is lower-casing once, so the lower-cased veto texts and phrases match as written |
| Text.LowerAppend | Elementen.py:25 | lower-casing distributes over concatenation |
| Text.ContainsWitness | Elementen.py:25 | an occurrence at some position means `sub in s` |
| Text.ContainsExtend | Elementen.py:25 | a text still contains a phrase after anything is put before or after it |
| Text.LowerKeepsWordChars | Elementen.py:500-501 | lower-casing does not change what counts as a word character, so `\b` under `re.IGNORECASE` sees the same boundaries |
| Text.ContainsWordContains | Elementen.py:500-501 | a whole-word match is in particular a substring match |
| Text.Split | Data.py:16-17 | `str.split(sep)` gives at least one piece, and no piece holds the separator |
| Text.JoinSplit | Data.py:16-17 | joining the pieces of a split with the separator gives back the text |
| Text.SplitJoin | GOT.py:36 | splitting a join of separator-free pieces gives back the pieces |
| Text.SpaceRunEnd | GOT.py:39 | the end of the whitespace run from a position lies between that position and the end |
| Text.SpaceRunEndSpec | GOT.py:39 | every character of the run is whitespace, and the character after it is not |
| Text.SpaceRunStart | GOT.py:39 | the start of the whitespace run ending at a position lies between the lower bound and that position |
| Text.SpaceRunStartSpec | GOT.py:39 | every character of the backward run is whitespace, and the one before it (above the bound) is not |
| Text.Strip | GOT.py:39 | `str.strip()` never lengthens the text; `StripSpec` states what it removes |
| Text.StripSpec | GOT.py:39 | `str.strip()` is no longer than its input, neither starts nor ends with whitespace, and is the input with only whitespace removed on either side |
| Text.TrimmedSpec | GOT.py:39 | a slice with only whitespace outside it and non-space ends is what strip returns |
| Text.FindChar | GOT.py:37 | `str.find(c)` is -1 exactly when `c` is absent, otherwise the position of its first occurrence |
| Got.AnswerOf | GOT.py:37-39 | a line yields nothing exactly when it has no colon |
| Got.HitsSpec | GOT.py:36-39 | the lines that yield an answer are listed in increasing order, and every such line is listed |
| Got.CollectFromHits | GOT.py:36-39 | the k-th answer collected is the answer of the k-th line that yields one |
| Got.CollectPrefix | GOT.py:36-39 | collecting over the first i lines depends only on those lines |
| Got.CollectAppend | GOT.py:36-39 | collecting over two blocks of lines is collecting over each and concatenating |
| Got.ExtractAnswers | GOT.py:35-42 | the parse of a completion returns the answers of the lines of its `split("\n")` |
| Got.AnswersOfLines | GOT.py:35-40 | the `for` loop with its `append` builds exactly the answers of the lines |
| Got.ColonLinesSpec | GOT.py:37-38 | the positions of the lines with a colon, in increasing order, all of them |
| Got.AnswersFromColonLines | GOT.py:36-39 | there is one answer per colon line, and the j-th answer is the stripped text after the first colon of the j-th colon line |
| Got.AnswersBound | GOT.py:35-42 | there are never more answers than lines |
| Got.AnswersAppend | GOT.py:36-39 | the answers of two blocks of lines are the answers of each, in order |
| Got.LineEffect | GOT.py:38-39 | a line without a colon adds nothing; a line with one adds its answer at the end |
| Got.FirstColonOnly | GOT.py:37-39 | a line of a colon-free key, a colon and a value answers the stripped value, whatever colons the value holds |
| Got.NameLineExample | GOT.py:37-39 | `NAAM: Jan` answers `Jan` |
| Got.StrayLineExample | GOT.py:38 | a line without a colon answers nothing |
| Got.TimeLineExample | GOT.py:37-39 | `UUR: 9:30` answers `9:30`, cut at the first colon only |
| Got.CollectThree | GOT.py:36-39 | collecting three lines concatenates what each yields |
| Got.ParseExample | GOT.py:35-42 | a name line, a stray line and a time line give `["Jan", "9:30"]` |
| OrderText.Merged | Data.py:16-21 | the merged lines are at least one and never more than the raw lines |
| OrderText.MergedFirst | Data.py:16-21 | merging the first n raw lines gives at least one and at most n lines |
| OrderText.MergeContinuations | Data.py:16-21 | the merging loop computes `Merged` |
| OrderText.MergedCount | Data.py:16-21 | the merged lines number one plus the lines after the first that do not start lower case |
| OrderText.MergedFirstCount | Data.py:16-21 | that count, for every prefix of the raw lines |
| OrderText.JoinFirstPrefix | Data.py:19 | joining the first n lines of a group depends only on those lines |
| OrderText.JoinFirstIsJoin | Data.py:19 | repeated `+= ' ' + line` over the first n lines of a group is `" ".join` of those lines |
| OrderText.JoinWordsIsJoin | Data.py:19 | a merged line is `" ".join` of its group of raw lines |
| OrderText.GroupingExtendLast | Data.py:18-19 | a lower-case line extends the last group and keeps a valid grouping |
| OrderText.GroupingAddNew | Data.py:20-21 | any other line starts a new group and keeps a valid grouping |
| OrderText.JoinsExtendLast | Data.py:19 | `new_lines[-1] += ' ' + line` keeps each merged line the space-join of its group |
| OrderText.JoinsAddNew | Data.py:21 | appending a line as its own group keeps each merged line the space-join of its group |
| OrderText.GroupedFirst | Data.py:16-21 | the grouping of a prefix is never empty |
| OrderText.MergedIsGrouping | Data.py:16-21 | the raw lines split into groups, each a line not starting lower case followed by lower-case lines, flattening back to the raw lines, and each merged line is its group joined with spaces |
| OrderText.MergesFirst | Data.py:16-21 | the same for every prefix of the raw lines |
| OrderText.MergesOne | Data.py:16 | the first raw line alone is one group and one merged line |
| OrderText.GroupingStep | Data.py:17-21 | one iteration of the loop keeps the grouping valid |
| OrderText.JoinsStep | Data.py:17-21 | one iteration of the loop keeps the merged lines the joins of the groups |
| OrderText.DropNoise | Data.py:24 | the filter never lengthens the lines |
| OrderText.DropNoiseKeeps | Data.py:24 | a line survives the filter exactly when it was there and holds neither noise marker |
| OrderText.DropNoiseAppend | Data.py:24 | the filter of two blocks is the filter of each, in order |
| OrderText.NoiseSpreadsOverGroup | Data.py:18-24 | a noise marker on any raw line of a group is still in the merged line, so the whole group is dropped |
| OrderText.NoiseSpreadsOverFirst | Data.py:18-24 | the same for every prefix of a group |
| OrderText.TotalPriceIndex | Data.py:27 | `next(...)` finds nothing exactly when no line is a total line, and otherwise finds the first one |
| OrderText.Truncate | Data.py:27-32 | with no total line the script stops (`StopIteration`); otherwise the result is a non-empty prefix ending at the first total line and holding no earlier one |
| OrderText.Normalised | Data.py:16-32 | the script fails exactly when the filtered lines have no total line; otherwise it keeps a prefix of the filtered lines, free of noise, ending at the first total line |
| OrderText.WriteRows | Data.py:32-33 | the write loop fills exactly cells A1..An, row k holding line k |
| OrderText.RunDataScript | Data.py:16-33 | the script fails exactly when normalising fails; otherwise column A holds the normalised lines and nothing else |
| OrderText.MergeExample | Data.py:16-21 | "Kast A", "bovenzijde", "Kast B" merge into "Kast A bovenzijde", "Kast B" |
| OrderText.NoiseExample | Data.py:24 | a dimensions line is noise |
| OrderText.TruncateExample | Data.py:27-32 | the lines after the total line are cut off |
| Elementen.Tally | Elementen.py:11 | there is one tally per target phrase |
| Elementen.ApplyPolicy | Elementen.py:88-95 | identity; floor(n/2) that is 0 only for 0 and 1 for a single hit; doubling; or the cap for any positive sum and 0 for none |
| Elementen.PhraseTallySnoc | Elementen.py:18-26 | scanning one more cell adds that cell's hits for the phrase |
| Elementen.ScanCells | Elementen.py:14-26 | the nested scan loops build the per-phrase tallies of the specification |
| Elementen.SumTallies | Elementen.py:29 | `sum(word_counts.values())` is the sum of the tallies |
| Elementen.CountElements | Elementen.py:6-32 | the counter returns the policy applied to the summed tallies |
| Elementen.CellHitsAll | Elementen.py:24-26 | one cell gives one hit count per phrase |
| Elementen.SumPointwise | Elementen.py:29 | summing tallies added pointwise adds their sums |
| Elementen.SumZero | Elementen.py:29 | tallies that are all zero sum to zero |
| Elementen.RawTotalByCells | Elementen.py:14-29 | summing per phrase over all cells equals summing per cell over all phrases |
| Elementen.VetoedCellScoresNothing | Elementen.py:23 | a cell holding a veto text adds nothing to any tally |
| Elementen.PlintenExamples | Elementen.py:88-95 | skirting: 0 hits give 0, 1 gives 1, 3 give 1, 4 give 2 |
| Elementen.PhraseTallyBound | Elementen.py:24-26 | a phrase's tally is at most its weight times the number of cells |
| Elementen.CellHitsAtMostWeight | Elementen.py:25-26 | a cell adds at most the phrase's weight |
| Elementen.VaatwasserWeights | Elementen.py:366-391 | the dishwasher counter weighs every phrase one |
| Elementen.DeurVaatwasserTally | Elementen.py:468-472 | the dishwasher-door tally of a phrase is its weight times the plain tally |
| Elementen.DeurVaatwasserCount | Elementen.py:450-479 | dishwasher doors: the dishwasher count plus the "Deurfront in" tally once more, since that phrase adds 2 per cell |
| Elementen.SinglePhraseCount | Elementen.py:103-129 | a one-phrase counter returns its policy applied to that phrase's tally |
| Elementen.AchterwandCount | Elementen.py:482-511 | back walls: the whole-word tally of "Achterwandbekleding"; the `continue` for the plural never fires |
| Elementen.PluralIsNotTheWord | Elementen.py:500-501 | "Achterwandbekledingen" does not hold the whole word "Achterwandbekleding" |
| Elementen.WordBeforeSpace | Elementen.py:500-501 | "Achterwandbekleding 60cm" holds it |
| Elementen.AchterwandWholeWord | Elementen.py:482-510 | the plural counts 0 and the word followed by a size counts 1 |
| Elementen.CornerWallUnitExample | Elementen.py:6-63 | a wall corner unit counts as no base unit but as a wall unit |
| Elementen.UpperCaseBaseUnitExample | Elementen.py:25 | matching ignores case: "ONDERKAST 600" is a base unit |
| Elementen.HobCabinetExample | Elementen.py:220-245 | "Kookplaatkast" matches both hob phrases, and doubled gives 4 |
| Elementen.OnderkastenCount | Elementen.py:6-34 | base and tall units: the matches of the seven phrases, cell by cell; a cell holding "wand-hoekkast" or "kleinere dieptes bij onderkast" counts for nothing |
| Elementen.HangkastenCount | Elementen.py:37-63 | wall units: the matches of "Wandkast" and "Wand-hoekkast", cell by cell |
| Elementen.PlintenCount | Elementen.py:66-100 | skirting: half the matches of the three codes rounded down, but 1 for a single match |
| Elementen.KroonlijstenCount | Elementen.py:103-129 | cornices: the number of cells holding "Kroonlijst", at most the number of cells |
| Elementen.LichtlijstenCount | Elementen.py:132-158 | light rails: the number of cells holding "Lichtlijsten" |
| Elementen.WerkbladenCount | Elementen.py:161-187 | worktops: the matches of the two worktop phrases, cell by cell |
| Elementen.SpoelbakKraanCount | Elementen.py:190-217 | sink and tap: 3 when any of its three phrases matches, else 0 |
| Elementen.KookplaatCount | Elementen.py:220-245 | hobs: twice the matches of its two phrases, cell by cell |
| Elementen.DampkapCount | Elementen.py:248-275 | hoods: 1 when any of the four hood phrases matches, else 0 |
| Elementen.OvenCount | Elementen.py:278-305 | ovens: 1 when some cell holds "oven", else 0 |
| Elementen.MicrogolfovenCount | Elementen.py:308-335 | microwaves: 1 when some cell holds "magnetron", else 0 |
| Elementen.KoelkastCount | Elementen.py:338-363 | fridges: twice the matches of its three phrases, cell by cell |
| Elementen.VaatwasserCount | Elementen.py:366-391 | dishwashers: the matches of the three door-front phrases, cell by cell |
| Elementen.PasstukkenCount | Elementen.py:394-419 | fillers: the number of cells holding "passtuk" |
| Elementen.AfdekbodemsCount | Elementen.py:422-447 | cover panels: the number of cells holding "afdekbodem" |
| Elementen.ZijSteunwandCount | Elementen.py:515-540 | side and support walls: the matches of the seventeen codes, cell by cell |
| Elementen.AndereCount | Elementen.py:543-570 | other: 5 when some cell holds "LineN", else 0 |
| Elementen.VerlichtingCount | Elementen.py:573-598 | lighting: the number of cells holding "LNDERB" |
| Appliances.DigitChar | ApplianceManagerFrame.py:73-76 | a digit below ten is a decimal digit character |
| Appliances.NatToDigits | ApplianceManagerFrame.py:73-76 | the decimal form of a natural number is a non-empty string of digits |
| Appliances.DigitsRoundTrip | ApplianceManagerFrame.py:76 | reading back the decimal digits of n gives n |
| Appliances.ParseInt | ApplianceManagerFrame.py:76 | `int()` of a string only ever raises ValueError, and a string of decimal digits reads as its value |
| Appliances.Str | ApplianceManagerFrame.py:73-75 | `str()` of a string is the string, and `int(str(i))` gives back the integer |
| Appliances.ToInt | ApplianceManagerFrame.py:76 | `int(v)` raises TypeError exactly for `None` (any other failure is a ValueError); an integer is itself, a digit string its value |
| Appliances.StripUnspaced | ApplianceManagerFrame.py:76 | `int()` strips nothing from a text that neither starts nor ends with whitespace |
| Appliances.ParseIntString | ApplianceManagerFrame.py:73-76 | `int(str(i)) == i` |
| Appliances.FromDict | ApplianceManagerFrame.py:66-80 | a record missing a required field raises ValueError; otherwise it loads exactly when `int(punten)` succeeds, else raises that error; a loaded appliance holds `str()` of code, brand and category, the integer points, the price and the optional fields |
| Appliances.FromDictToDict | ApplianceManagerFrame.py:66-80 | reading back the record of an appliance gives the appliance |
| Appliances.MissingFieldRejected | ApplianceManagerFrame.py:68-70 | any missing required field raises ValueError |
| Appliances.FromDictExample | ApplianceManagerFrame.py:66-80 | the unit-test record loads with code TEST001 and 50 points |
| Appliances.ValidAppliancesMembers | ApplianceManagerFrame.py:139-144 | an appliance is loaded exactly when some record yields it |
| Appliances.LoadAppliances | ApplianceManagerFrame.py:139-147 | a TypeError escapes the loop exactly when some record reaching it raises one; otherwise the appliances of the valid records are returned in order and the others skipped |
| Appliances.PointsBucket | ApplianceManagerFrame.py:248 | `points // 10 * 10` is the multiple of ten at or below the points |
| Appliances.AppendToBucket | ApplianceManagerFrame.py:238-251 | creating the list on first use and appending puts the appliance at the end of its key's list |
| Appliances.IndexSnoc | ApplianceManagerFrame.py:236-251 | indexing one more appliance appends it under its key |
| Appliances.WithKey | ApplianceManagerFrame.py:236-251 | the appliances with a key never outnumber the appliances |
| Appliances.WithKeyMembers | ApplianceManagerFrame.py:236-251 | an appliance is listed under a key exactly when it is present and has that key |
| Appliances.IndexBuckets | ApplianceManagerFrame.py:230-251 | the index has exactly the keys of the appliances, and each key lists its appliances in order |
| Appliances.ApplianceFilter.constructor | ApplianceManagerFrame.py:226-228 | the filter keeps the appliances and has its indexes built |
| Appliances.ApplianceFilter.BuildIndexes | ApplianceManagerFrame.py:230-251 | the loop leaves by-category, by-brand and by-points each the index of the appliances |
| Appliances.SelectedOnly | ApplianceManagerFrame.py:253-280 | the selection never has more appliances than the list |
| Appliances.KeepAllKeepWhere | ApplianceManagerFrame.py:262-278 | one comprehension followed by the rest is one pass with all tests |
| Appliances.ChainOnePass | ApplianceManagerFrame.py:262-278 | the chained comprehensions keep what passes every test, in order |
| Appliances.KeepAllNone | ApplianceManagerFrame.py:260 | with no test the copy is the list |
| Appliances.PassesAllAppend | ApplianceManagerFrame.py:262-278 | passing two lists of tests is passing each |
| Appliances.TestsMeanSelected | ApplianceManagerFrame.py:262-278 | passing the tests is meeting every given criterion: category, brand, option (or "-"), at most max points, search term in code or brand ignoring case |
| Appliances.KeepAllSelected | ApplianceManagerFrame.py:262-278 | the tests keep the selected appliances |
| Appliances.FilteredIsSelection | ApplianceManagerFrame.py:253-280 | `filter` returns the selected appliances in list order |
| Appliances.SelectedOnlyMembers | ApplianceManagerFrame.py:253-280 | an appliance is returned exactly when it is in the list and meets the criteria |
| Appliances.NoCriteriaKeepsAll | ApplianceManagerFrame.py:253-280 | with no criterion `filter` returns every appliance |
| Appliances.SelectedAll | ApplianceManagerFrame.py:253-280 | with no criterion every appliance is selected |
| Appliances.SelectedOnlyOfThree | ApplianceManagerFrame.py:253-280 | the selection of three appliances keeps each selected one, in order |
| Appliances.FilterMaxPointsExample | ApplianceManagerFrame.py:271-272 | of 60, 40 and 80 points, only the 40-point appliance is at most 50 |
| Appliances.FilterCategoryExample | ApplianceManagerFrame.py:262-263 | the category filter keeps the one oven |
| Appliances.FilterBrandExample | ApplianceManagerFrame.py:265-266 | the brand filter keeps the one Siemens |
| Appliances.ApplianceFilter.Filter | ApplianceManagerFrame.py:253-280 | `filter` returns the selection of the appliances, and an appliance is returned exactly when it meets the criteria |
| Appliances.StrLessIrreflexive | ApplianceManagerFrame.py:288 | no string sorts before itself |
| Appliances.StrLessTransitive | ApplianceManagerFrame.py:288 | string order is transitive |
| Appliances.StrLessTotal | ApplianceManagerFrame.py:288 | any two distinct strings are ordered |
| Appliances.Insert | ApplianceManagerFrame.py:288 | inserting into a strictly sorted list keeps it strictly sorted and adds exactly that string |
| Appliances.SortedSet | ApplianceManagerFrame.py:288 | `sorted(set(...))` is strictly sorted and holds exactly the strings of the input |
| Appliances.Brands | ApplianceManagerFrame.py:288 | the brand of each appliance, in order |
| Appliances.WithCategoryIsKeepWhere | ApplianceManagerFrame.py:238-263 | the category index holds exactly what the category comprehension of `filter` keeps, in order |
| Appliances.KeepWhereMembers | ApplianceManagerFrame.py:286 | a comprehension keeps exactly the members that pass |
| Appliances.WithinMaxOffered | ApplianceManagerFrame.py:284-286 | the category's appliances within the maximum are those offered |
| Appliances.BrandsOfOffered | ApplianceManagerFrame.py:284-288 | a brand is listed exactly when an offered appliance has it |
| Appliances.BrandsInSpec | ApplianceManagerFrame.py:282-289 | with nothing offered the answer is `["-"]`; otherwise the brands of the offered appliances, strictly sorted, each once |
| Appliances.ApplianceFilter.BrandsForCategory | ApplianceManagerFrame.py:282-289 | read through the category index: `["-"]` when nothing in the category is within the maximum, else exactly the brands offered, sorted and without duplicates |
| Appliances.FindCode | ApplianceManagerFrame.py:302-303 | the search finds no item exactly when no item has the code, and otherwise the first item with it |
| Appliances.Added | ApplianceManagerFrame.py:299-307 | adding grows the cart by one item exactly when no item has the code |
| Appliances.Removed | ApplianceManagerFrame.py:313 | removal never grows the cart and leaves no item with the code |
| Appliances.Total | ApplianceManagerFrame.py:321-323 | the total points of a cart with no negative points or quantities is not negative |
| Appliances.AddedSpec | ApplianceManagerFrame.py:299-307 | adding bumps the quantity of the first item with the code and nothing else, or appends a new item of quantity one |
| Appliances.AddedTotal | ApplianceManagerFrame.py:299-323 | adding raises the total points by the points of the bumped item, or of the new appliance |
| Appliances.AddedDistinct | ApplianceManagerFrame.py:299-307 | adding keeps the codes of the items distinct |
| Appliances.RemovedMembers | ApplianceManagerFrame.py:313 | an item survives removal exactly when it was there and has another code |
| Appliances.RemovedDistinct | ApplianceManagerFrame.py:313 | removal keeps the codes of the items distinct |
| Appliances.RemovedAbsent | ApplianceManagerFrame.py:313 | removing a code no item has changes nothing |
| Appliances.RemovedTotal | ApplianceManagerFrame.py:311-323 | in a cart of distinct codes, removing a code takes off exactly its item's points times quantity |
| Appliances.RemoveUndoesAdd | ApplianceManagerFrame.py:299-314 | removing what was just added is removing it from the cart before |
| Appliances.CartExample | ApplianceManagerFrame.py:299-323 | one appliance of 50 points: 50 after adding, quantity 2 and 100 after adding again, empty and 0 after removing |
| Appliances.ShoppingCart.constructor | ApplianceManagerFrame.py:295-297 | a new cart is empty, so its codes are distinct |
| Appliances.ShoppingCart.AddItem | ApplianceManagerFrame.py:299-309 | the search loop with its `else` branch leaves the items as `Added` describes, keeps the codes distinct, raises the total by the points of the bumped or new appliance, and notifies once |
| Appliances.ShoppingCart.RemoveItem | ApplianceManagerFrame.py:311-314 | the items lose every item of the code, the codes stay distinct, the total drops by that item's points times quantity, and observers are notified once |
| Appliances.ShoppingCart.Clear | ApplianceManagerFrame.py:316-319 | the cart is empty (so its codes are distinct), and observers are notified once |
| Datahandler.CellMappingInjective | Datahandler.py:23-30 | the mapping covers lines 1..6 and sends them to six distinct header cells |
| Datahandler.HeaderSheet | Datahandler.py:33-39 | writing the header keeps every cell of the sheet and adds only header cells |
| Datahandler.WriteHeader | Datahandler.py:33-39 | the header loop computes `HeaderSheet` |
| Datahandler.PlacedStep | Datahandler.py:37-39 | line n places its mapped cell, if any, beyond those of lines 1..n-1 |
| Datahandler.HeaderSheetKeys | Datahandler.py:33-39 | the header adds exactly the mapped cells of the lines given |
| Datahandler.HeaderSheetLines | Datahandler.py:33-39 | mapped line i is written to its cell |
| Datahandler.HeaderSheetKeeps | Datahandler.py:33-39 | every other cell keeps its value |
| Datahandler.HeaderSheetSpec | Datahandler.py:33-39 | the three together: which cells, what they hold, nothing else changed |
| Datahandler.PlacedInHeaderCells | Datahandler.py:23-39 | only header cells are written, and all six once six lines are given |
| Datahandler.HeaderIgnoresExtraLines | Datahandler.py:37-38 | lines after the sixth are ignored |
| Datahandler.CountValues | Datahandler.py:42-100 | one number per counted rule, the count of that rule over the cells |
| Datahandler.FillKeys | Datahandler.py:111-112 | writing the first k named cells writes exactly those cells |
| Datahandler.FillValues | Datahandler.py:111-112 | with distinct names each named cell holds its value |
| Datahandler.CollectCounts | Datahandler.py:42-100 | `_collect_counts` has exactly the nineteen count cells |
| Datahandler.CountCellsDistinct | Datahandler.py:44-100 | nineteen distinct count cells, none a header cell |
| Datahandler.CollectCountsKeys | Datahandler.py:42-100 | `_collect_counts` has exactly the nineteen cells |
| Datahandler.CollectCountsValues | Datahandler.py:42-100 | each count cell holds the count of its counter |
| Datahandler.CollectCountsAvoidsHeader | Datahandler.py:23-100 | the counts never overwrite a header cell |
| Datahandler.CollectCountsGaps | Datahandler.py:42-100 | E28, E29, E31, E32 and E36 are left as in the template |
| Datahandler.HeaderCommutes | Datahandler.py:109-112 | writing the header before or after cells outside the header gives the same sheet |
| Datahandler.WriteCells | Datahandler.py:111-112 | the write loop puts every named value in place over the sheet |
| Datahandler.Generate | Datahandler.py:103-115 | the generated sheet is the template with the header written and the counts over it |
| Datahandler.WriteOrderIrrelevant | Datahandler.py:109-112 | the header and the counts do not depend on the order they are written in |
| Datahandler.HeaderExample | Datahandler.py:37-39 | the first header line lands in C6 |

## Left out

- Reading the PDF (PyPDF2), loading and saving workbooks (openpyxl), the Tk dialogs and
  `main.py`: file and GUI I/O. The model starts from the extracted text, the cells in
  scan order, and the template sheet.
- The OpenAI completion call in GOT.py and the `strip()` of its output at line 32: the
  completion is a parameter of `ExtractAnswers`.
- Import-time evaluation (Elementen.py computes every `total_count_*` on import):
  `CountElements` is the same computation, called on given cells.
- A workbook with several sheets: the cells of all sheets form one sequence, in sheet
  order, which is what the nested loops visit.
- `str(cell.value)` of non-string cells: a cell is its text or `None`.
- Unicode: `str.lower()`, `str.islower()`, `str.strip()` and `\b` are modelled on ASCII
  letters, digits and whitespace.
- Appliances.FromDict: does not model `float(price_ex)` and its possible ValueError or
  TypeError. Prices are kept as the JSON value read, because floating point is out of scope.
- Appliances.ParseInt: accepts a sign and decimal digits only. Python's underscores and
  non-ASCII digits are not modelled.
- JSON arrays, objects and floats as field values, and top-level items that are not
  dictionaries: a record is a map to scalar JSON values.
- Reading `appliances.json`, and the `FileNotFoundError` or `JSONDecodeError` fallback to
  an empty list: `LoadAppliances` takes the parsed records.
- `ShoppingCart.get_total_price`: floating point and rounding.
- `ShoppingCart.TotalPoints` is `Total(items)`. How the total changes is stated by
  `AddItem` and `RemoveItem`, through `AddedTotal` and `RemovedTotal`, and by `CartExample`.
- Observers (`add_observer`, `_notify_observers`): only the number of notifications is
  kept.
- `item.quantity += 1` mutates a `CartItem` object in place. Here a cart item is a value
  and the item is replaced in the list, so aliasing of items is not captured.
- `count_afdekbodems` is in the catalogue (`Afdekbodems`), but `_collect_counts` does not
  use it, so no cell receives it.
- The rest of ApplianceManagerFrame.py (the electric block cache, the Tk frame) is not
  part of this model. The functions the tests at tests/test_appliance_manager.py:70-83
  call do not exist in the source.
