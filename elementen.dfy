/**
 * The element counters of Elementen.py. Each `count_*` function scans every non-empty cell
 * of the order workbook, adds to a per-phrase tally for every target phrase the cell holds
 * (ignoring case), sums the tallies and applies a fixed post-processing step. The twenty
 * functions differ only in their phrase list, in how a phrase is matched, in phrases that
 * veto a cell, in per-phrase weights and in the post-processing step, so here they are one
 * counting method over a rule, and the catalogue of rules.
 *
 * A workbook is the sequence of its cells in the order `iter_rows` visits them, sheet after
 * sheet; an empty cell (`cell.value is None`) is `None`.
 */
module Elementen {
  import opened Wrappers
  import opened Text

  /** Plain `word.lower() in cell_value.lower()`, or `re.search(r"\b...\b", ..., re.IGNORECASE)`. */
  datatype MatchMode = Substring | WholeWord

  /** The arithmetic applied to the summed tallies. */
  datatype Policy =
    | Identity
    | HalvedFloorMin1   // floor(n / 2), but at least 1 when n > 0
    | Doubled           // n * 2
    | CappedAt(cap: nat) // cap when n >= 1

  /** One counter: its target phrases and how they are matched, weighed and post-processed. */
  datatype Rule = Rule(
    phrases: seq<string>,
    mode: MatchMode,
    vetoes: seq<string>,   // lower-case texts that make a cell count for nothing
    doubled: seq<string>,  // lower-cased phrases that add 2 per matching cell
    skipped: seq<string>,  // lower-cased phrases whose matches are skipped with `continue`
    policy: Policy)

  type Cells = seq<Option<string>>

  /** The cell holds one of the rule's veto texts. */
  predicate Vetoed(rule: Rule, text: string)
  {
    exists v | v in rule.vetoes :: Contains(Lower(text), v)
  }

  /** The cell text matches phrase `w`, ignoring case. */
  predicate Matches(rule: Rule, text: string, w: string)
  {
    match rule.mode
    case Substring => Contains(Lower(text), Lower(w))
    case WholeWord => ContainsWord(Lower(text), Lower(w))
  }

  /** What one matching cell adds to the tally of phrase `w`. */
  function Weight(rule: Rule, w: string): nat
  {
    if Lower(w) in rule.skipped then 0 else if Lower(w) in rule.doubled then 2 else 1
  }

  /** What `cell` adds to the tally of phrase `w`. */
  function CellHits(rule: Rule, cell: Option<string>, w: string): nat
  {
    match cell
    case None => 0
    case Some(text) => if !Vetoed(rule, text) && Matches(rule, text, w) then Weight(rule, w) else 0
  }

  /** `word_counts[w]` after all of `cells` have been scanned. */
  function PhraseTally(rule: Rule, cells: Cells, w: string): nat
    decreases |cells|
  {
    if cells == [] then 0
    else PhraseTally(rule, cells[..|cells| - 1], w) + CellHits(rule, cells[|cells| - 1], w)
  }

  /** The whole `word_counts` dictionary, one entry per phrase position. */
  function Tally(rule: Rule, cells: Cells): (t: seq<nat>)
    ensures |t| == |rule.phrases|
  {
    seq(|rule.phrases|, j requires 0 <= j < |rule.phrases| => PhraseTally(rule, cells, rule.phrases[j]))
  }

  function Sum(xs: seq<nat>): nat
    decreases |xs|
  {
    if xs == [] then 0 else Sum(xs[..|xs| - 1]) + xs[|xs| - 1]
  }

  /** `sum(word_counts.values())`. */
  function RawTotal(rule: Rule, cells: Cells): nat
  {
    Sum(Tally(rule, cells))
  }

  /** The post-processing step of each counter. */
  function ApplyPolicy(policy: Policy, n: nat): (r: nat)
    ensures policy.Identity? ==> r == n
    ensures policy.HalvedFloorMin1? ==> (r == 0 <==> n == 0) && (n == 1 ==> r == 1) && (n >= 2 ==> 2 * r <= n < 2 * r + 2)
    ensures policy.Doubled? ==> r == 2 * n && r % 2 == 0
    ensures policy.CappedAt? ==> (n == 0 ==> r == 0) && (n >= 1 ==> r == policy.cap)
  {
    match policy
    case Identity => n
    case HalvedFloorMin1 => if n > 0 && n / 2 < 1 then 1 else n / 2
    case Doubled => n * 2
    case CappedAt(cap) => if n >= 1 then cap else n
  }

  /** The result of the counter for `rule` on the workbook `cells`. */
  function Count(rule: Rule, cells: Cells): nat
  {
    ApplyPolicy(rule.policy, RawTotal(rule, cells))
  }

  lemma PhraseTallySnoc(rule: Rule, cells: Cells, c: Option<string>, w: string)
    ensures PhraseTally(rule, cells + [c], w) == PhraseTally(rule, cells, w) + CellHits(rule, c, w)
  {
    assert (cells + [c])[..|cells|] == cells;
  }

  /** The scan of a `count_*` function: for each non-empty cell, unless it holds a veto text,
      add the weight of every phrase it matches to that phrase's tally. */
  method ScanCells(rule: Rule, cells: Cells) returns (counts: seq<nat>)
    ensures counts == Tally(rule, cells)
  {
    counts := seq(|rule.phrases|, _ => 0);
    for i := 0 to |cells|
      invariant counts == Tally(rule, cells[..i])
    {
      assert cells[..i + 1] == cells[..i] + [cells[i]];
      match cells[i]
      case None =>
        forall j | 0 <= j < |rule.phrases|
          ensures counts[j] == PhraseTally(rule, cells[..i + 1], rule.phrases[j])
        {
          PhraseTallySnoc(rule, cells[..i], None, rule.phrases[j]);
        }
      case Some(text) =>
        var vetoed := Vetoed(rule, text);
        for j := 0 to |rule.phrases|
          invariant |counts| == |rule.phrases|
          invariant forall k :: 0 <= k < j ==> counts[k] == PhraseTally(rule, cells[..i + 1], rule.phrases[k])
          invariant forall k :: j <= k < |counts| ==> counts[k] == PhraseTally(rule, cells[..i], rule.phrases[k])
        {
          var w := rule.phrases[j];
          PhraseTallySnoc(rule, cells[..i], Some(text), w);
          if !vetoed && Matches(rule, text, w) {
            counts := counts[j := counts[j] + Weight(rule, w)];
          }
        }
    }
    assert cells[..|cells|] == cells;
  }

  /** `sum(word_counts.values())`. */
  method SumTallies(counts: seq<nat>) returns (sum: nat)
    ensures sum == Sum(counts)
  {
    sum := 0;
    for j := 0 to |counts|
      invariant sum == Sum(counts[..j])
    {
      assert counts[..j + 1][..j] == counts[..j];
      sum := sum + counts[j];
    }
    assert counts[..|counts|] == counts;
  }

  /** A `count_*` function: the scan that fills the tallies, their sum, then the
      post-processing step. */
  method CountElements(rule: Rule, cells: Cells) returns (total: nat)
    ensures total == Count(rule, cells)
  {
    var counts := ScanCells(rule, cells);
    var sum := SumTallies(counts);
    match rule.policy
    case Identity =>
      total := sum;
    case HalvedFloorMin1 =>
      total := sum / 2;
      if sum > 0 && total < 1 {
        total := 1;
      }
    case Doubled =>
      total := sum * 2;
    case CappedAt(cap) =>
      total := sum;
      if total >= 1 {
        total := cap;
      }
  }

  /** What one cell adds to each phrase position. */
  function CellHitsAll(rule: Rule, cell: Option<string>): (h: seq<nat>)
    ensures |h| == |rule.phrases|
  {
    seq(|rule.phrases|, j requires 0 <= j < |rule.phrases| => CellHits(rule, cell, rule.phrases[j]))
  }

  /** What one cell adds over all phrases of the rule. */
  function CellScore(rule: Rule, cell: Option<string>): nat
  {
    Sum(CellHitsAll(rule, cell))
  }

  /** The raw total counted cell by cell instead of phrase by phrase. */
  function CellsTotal(rule: Rule, cells: Cells): nat
    decreases |cells|
  {
    if cells == [] then 0 else CellsTotal(rule, cells[..|cells| - 1]) + CellScore(rule, cells[|cells| - 1])
  }

  lemma {:induction false} SumPointwise(xs: seq<nat>, ys: seq<nat>, zs: seq<nat>)
    requires |xs| == |ys| == |zs|
    requires forall j :: 0 <= j < |zs| ==> zs[j] == xs[j] + ys[j]
    ensures Sum(zs) == Sum(xs) + Sum(ys)
    decreases |zs|
  {
    if zs != [] {
      var n := |zs| - 1;
      SumPointwise(xs[..n], ys[..n], zs[..n]);
    }
  }

  lemma {:induction false} SumZero(xs: seq<nat>)
    requires forall j :: 0 <= j < |xs| ==> xs[j] == 0
    ensures Sum(xs) == 0
    decreases |xs|
  {
    if xs != [] {
      SumZero(xs[..|xs| - 1]);
    }
  }

  /** Tallying per phrase and summing equals scoring each cell and summing: every cell adds
      the weight of each phrase it matches, so one cell can count several times. */
  lemma {:induction false} RawTotalByCells(rule: Rule, cells: Cells)
    ensures RawTotal(rule, cells) == CellsTotal(rule, cells)
    decreases |cells|
  {
    var n := |rule.phrases|;
    if cells == [] {
      SumZero(Tally(rule, cells));
    } else {
      var init := cells[..|cells| - 1];
      var c := cells[|cells| - 1];
      RawTotalByCells(rule, init);
      var hits := CellHitsAll(rule, c);
      forall j | 0 <= j < n
        ensures Tally(rule, cells)[j] == Tally(rule, init)[j] + hits[j]
      {
        PhraseTallySnoc(rule, init, c, rule.phrases[j]);
        assert init + [c] == cells;
      }
      SumPointwise(Tally(rule, init), hits, Tally(rule, cells));
      assert CellsTotal(rule, cells) == CellsTotal(rule, init) + CellScore(rule, c);
    }
  }

  /** A cell holding a veto text adds nothing, whatever phrases it also holds. */
  lemma VetoedCellScoresNothing(rule: Rule, text: string)
    requires Vetoed(rule, text)
    ensures CellScore(rule, Some(text)) == 0
  {
    SumZero(CellHitsAll(rule, Some(text)));
  }

  // The catalogue: one rule per `count_*` function and its `target_words_*` list.

  const Onderkasten := Rule(
    ["Onderkast", "Hoekkast", "Ladekast", "Kookplaatkast", "Spoelkast", "Ombouwkast", "Servies- / Voorraadkast"],
    Substring, ["wand-hoekkast", "kleinere dieptes bij onderkast"], [], [], Identity)
  const Hangkasten := Rule(["Wandkast", "Wand-hoekkast"], Substring, [], [], [], Identity)
  const Plinten := Rule(["SB15", "SB7", "SB20"], Substring, [], [], [], HalvedFloorMin1)
  const Kroonlijsten := Rule(["Kroonlijst"], Substring, [], [], [], Identity)
  const Lichtlijsten := Rule(["Lichtlijsten"], Substring, [], [], [], Identity)
  const Werkbladen := Rule(["Werkblad APD", "Werkblad APN"], Substring, [], [], [], Identity)
  const SpoelbakKraan := Rule(["Spoelkast", "kraan", "SPOELBAK"], Substring, [], [], [], CappedAt(3))
  const Kookplaat := Rule(["Kookplaatkast", "kookplaat"], Substring, [], [], [], Doubled)
  const Dampkap := Rule(["vlakscherm", "Wandschouwkap", "Wanddampkap", "dampkap"], Substring, [], [], [], CappedAt(1))
  const Oven := Rule(["oven"], Substring, [], [], [], CappedAt(1))
  const Microgolfoven := Rule(["magnetron"], Substring, [], [], [], CappedAt(1))
  const Koelkast := Rule(["Ombouwkast koel / vries", "Ombouwkast koelautomaat", "GD1"], Substring, [], [], [], Doubled)
  const Vaatwasser := Rule(["Deurfront voor", "Deurfront in", "Doorlopend deurfront"], Substring, [], [], [], Identity)
  const Passtukken := Rule(["passtuk"], Substring, [], [], [], Identity)
  const Afdekbodems := Rule(["afdekbodem"], Substring, [], [], [], Identity)
  const DeurVaatwasser := Rule(["Deurfront voor", "Deurfront in", "Doorlopend deurfront"], Substring, [], ["deurfront in"], [], Identity)
  const Achterwand := Rule(["Achterwandbekleding"], WholeWord, [], [], ["achterwandbekledingen"], Identity)
  const ZijSteunwand := Rule(
    ["HWK10", "HWK16", "HWK25", "HWK50", "WA10", "WA16", "WA25", "WA50", "WW10", "WW16", "WW25", "WW50",
     "WR10", "WR16", "WR25", "WR50", "Steunvoet"],
    Substring, [], [], [], Identity)
  const Andere := Rule(["LineN"], Substring, [], [], [], CappedAt(5))
  const Verlichting := Rule(["LNDERB"], Substring, [], [], [], Identity)

  /** The skirting count halves the hits, rounding down, but keeps a single hit. */
  lemma PlintenExamples()
    ensures ApplyPolicy(Plinten.policy, 0) == 0
    ensures ApplyPolicy(Plinten.policy, 1) == 1
    ensures ApplyPolicy(Plinten.policy, 3) == 1
    ensures ApplyPolicy(Plinten.policy, 4) == 2
  {
  }

  /** Each cell is counted at most once per phrase, however often the phrase occurs in it. */
  lemma {:induction false} PhraseTallyBound(rule: Rule, cells: Cells, w: string)
    ensures PhraseTally(rule, cells, w) <= Weight(rule, w) * |cells|
    decreases |cells|
  {
    if cells != [] {
      var n := |cells| - 1;
      var k := Weight(rule, w);
      PhraseTallyBound(rule, cells[..n], w);
      var hit := CellHits(rule, cells[n], w);
      assert hit <= k by {
        CellHitsAtMostWeight(rule, cells[n], w);
      }
      assert PhraseTally(rule, cells, w) == PhraseTally(rule, cells[..n], w) + hit;
      assert k * (n + 1) == k * n + k;
    }
  }

  lemma CellHitsAtMostWeight(rule: Rule, cell: Option<string>, w: string)
    ensures CellHits(rule, cell, w) <= Weight(rule, w)
  {
  }

  lemma Sum3(xs: seq<nat>)
    requires |xs| == 3
    ensures Sum(xs) == xs[0] + xs[1] + xs[2]
  {
    assert Sum(xs[..1]) == xs[0] by {
      assert xs[..1][..0] == [];
    }
    assert Sum(xs[..2]) == Sum(xs[..1]) + xs[1] by {
      assert xs[..2][..1] == xs[..1];
    }
  }

  /** The phrases of `count_Vaatwasser` all weigh 1. */
  lemma VaatwasserWeights(w: string)
    ensures Weight(Vaatwasser, w) == 1
  {
  }

  /** `count_Deur_vaatwasser` sees the same cells as `count_Vaatwasser`, but a cell
      matching "Deurfront in" adds 2 instead of 1. */
  lemma {:induction false} DeurVaatwasserTally(cells: Cells, w: string)
    ensures PhraseTally(DeurVaatwasser, cells, w) == Weight(DeurVaatwasser, w) * PhraseTally(Vaatwasser, cells, w)
    decreases |cells|
  {
    if cells != [] {
      DeurVaatwasserTally(cells[..|cells| - 1], w);
    }
  }

  /** So the door count is the dishwasher count plus the "Deurfront in" cells once more. */
  lemma DeurVaatwasserCount(cells: Cells)
    ensures Count(DeurVaatwasser, cells)
         == Count(Vaatwasser, cells) + PhraseTally(Vaatwasser, cells, "Deurfront in")
  {
    var ps := Vaatwasser.phrases;
    assert Lower("Deurfront in") == "deurfront in";
    assert |Lower(ps[0])| == 14 && |Lower(ps[2])| == 20;
    forall j | 0 <= j < 3
      ensures PhraseTally(DeurVaatwasser, cells, ps[j]) == (if j == 1 then 2 else 1) * PhraseTally(Vaatwasser, cells, ps[j])
    {
      DeurVaatwasserTally(cells, ps[j]);
    }
    Sum3(Tally(DeurVaatwasser, cells));
    Sum3(Tally(Vaatwasser, cells));
  }

  lemma SumSingle(x: nat)
    ensures Sum([x]) == x
  {
    assert [x][..0] == [];
  }

  lemma Sum2(xs: seq<nat>)
    requires |xs| == 2
    ensures Sum(xs) == xs[0] + xs[1]
  {
    assert Sum(xs[..1]) == xs[0] by {
      assert xs[..1][..0] == [];
    }
  }

  /** A rule with one phrase counts its tally, post-processed. */
  lemma SinglePhraseCount(rule: Rule, cells: Cells)
    requires |rule.phrases| == 1
    ensures Count(rule, cells) == ApplyPolicy(rule.policy, PhraseTally(rule, cells, rule.phrases[0]))
  {
    assert Tally(rule, cells) == [PhraseTally(rule, cells, rule.phrases[0])];
    SumSingle(PhraseTally(rule, cells, rule.phrases[0]));
  }

  /** The `continue` of `count_Achterwand` never fires: its only phrase lower-cases to the
      singular, so every cell holding that word adds exactly 1. */
  lemma AchterwandCount(cells: Cells)
    ensures Weight(Achterwand, "Achterwandbekleding") == 1
    ensures Count(Achterwand, cells) == PhraseTally(Achterwand, cells, "Achterwandbekleding")
  {
    assert |Lower("Achterwandbekleding")| == 19;
    SinglePhraseCount(Achterwand, cells);
  }

  /** Whole-word matching: the plural is not the word, since no boundary ends it there. */
  lemma PluralIsNotTheWord()
    ensures !ContainsWord(Lower("Achterwandbekledingen"), Lower("Achterwandbekleding"))
  {
    var w := Lower("Achterwandbekleding");
    var plural := Lower("Achterwandbekledingen");
    assert plural[18] == 'g' && plural[19] == 'e' && plural[1] == 'c' && plural[2] == 'h';
    assert w[0] == 'a';
    forall p | 0 <= p <= |plural| - |w|
      ensures !WordAt(plural, w, p)
    {
      if p == 0 {
        assert !BoundaryAt(plural, 19);
      } else {
        assert plural[p..p + |w|][0] == plural[p];
      }
    }
  }

  /** Whole-word matching: the word followed by a space is found. */
  lemma WordBeforeSpace()
    ensures ContainsWord(Lower("Achterwandbekleding 60cm"), Lower("Achterwandbekleding"))
  {
    var w := Lower("Achterwandbekleding");
    var text := "Achterwandbekleding 60cm";
    assert text == "Achterwandbekleding" + " 60cm";
    LowerAppend("Achterwandbekleding", " 60cm");
    var t := Lower(text);
    assert t[..19] == w;
    assert t[18] == 'g' && t[19] == ' ';
    assert WordAt(t, w, 0);
  }

  /** So in `count_Achterwand` a cell with only the plural counts nothing, one with the word counts once. */
  lemma AchterwandWholeWord()
    ensures Count(Achterwand, [Some("Achterwandbekledingen")]) == 0
    ensures Count(Achterwand, [Some("Achterwandbekleding 60cm")]) == 1
  {
    AchterwandCount([Some("Achterwandbekledingen")]);
    AchterwandCount([Some("Achterwandbekleding 60cm")]);
    PluralIsNotTheWord();
    WordBeforeSpace();
    assert [Some("Achterwandbekledingen")][..0] == [];
    assert [Some("Achterwandbekleding 60cm")][..0] == [];
  }

  /** A corner wall unit is vetoed for the base units, though it names "kast", and is a wall unit. */
  lemma CornerWallUnitExample()
    ensures Count(Onderkasten, [Some("Wand-hoekkast")]) == 0
    ensures PhraseTally(Hangkasten, [Some("Wand-hoekkast")], "Wand-hoekkast") == 1
  {
    var t := Lower("Wand-hoekkast");
    assert OccursAt(t, "wand-hoekkast", 0);
    ContainsWitness(t, "wand-hoekkast", 0);
    assert Onderkasten.vetoes[0] == "wand-hoekkast";
    assert Vetoed(Onderkasten, "Wand-hoekkast");
    VetoedCellScoresNothing(Onderkasten, "Wand-hoekkast");
    RawTotalByCells(Onderkasten, [Some("Wand-hoekkast")]);
    assert [Some("Wand-hoekkast")][..0] == [];
    assert OccursAt(t, Lower("Wand-hoekkast"), 0);
  }

  /** Matching ignores case: "ONDERKAST 600" is a base unit. */
  lemma UpperCaseBaseUnitExample()
    ensures PhraseTally(Onderkasten, [Some("ONDERKAST 600")], "Onderkast") == 1
  {
    var text := "ONDERKAST 600";
    assert text == "ONDERKAST" + " 600";
    LowerAppend("ONDERKAST", " 600");
    var t := Lower(text);
    assert t[0] == 'o';
    assert !Contains(t, "wand-hoekkast") by {
      forall p | 0 <= p <= |t| - 13
        ensures !OccursAt(t, "wand-hoekkast", p)
      {
        assert t[p..p + 13][0] == t[0];
      }
    }
    assert !Vetoed(Onderkasten, text);
    assert Lower("ONDERKAST") == Lower("Onderkast");
    assert OccursAt(t, Lower("Onderkast"), 0);
    assert [Some(text)][..0] == [];
  }

  /** One cell can count for several phrases: a hob cabinet holds both the cabinet and the hob,
      and `count_Kookplaat` doubles the sum. */
  lemma HobCabinetExample()
    ensures Count(Kookplaat, [Some("Kookplaatkast")]) == 4
  {
    var cells := [Some("Kookplaatkast")];
    var t := Lower("Kookplaatkast");
    assert "Kookplaatkast" == "Kookplaat" + "kast";
    LowerAppend("Kookplaat", "kast");
    assert OccursAt(t, Lower("Kookplaatkast"), 0);
    assert OccursAt(t, Lower("kookplaat"), 0) by {
      assert Lower("kookplaat") == Lower("Kookplaat");
    }
    assert cells[..0] == [];
    assert Tally(Kookplaat, cells) == [1, 1];
    Sum2(Tally(Kookplaat, cells));
  }

  // What each configured counter returns, on every workbook.

  /** A one-phrase counter without weights or post-processing counts the cells holding its
      phrase, so never more than there are cells. */
  lemma SinglePhrasePlainCount(rule: Rule, cells: Cells)
    requires |rule.phrases| == 1 && rule.policy == Identity
    requires rule.doubled == [] && rule.skipped == []
    ensures Count(rule, cells) == PhraseTally(rule, cells, rule.phrases[0]) <= |cells|
  {
    SinglePhraseCount(rule, cells);
    PhraseTallyBound(rule, cells, rule.phrases[0]);
  }

  /** `count_onderkasten_kolomkasten`: the number of (cell, phrase) matches over its seven
      phrases, where a cell holding either veto text counts for nothing. */
  lemma OnderkastenCount(cells: Cells)
    ensures |Tally(Onderkasten, cells)| == 7
    ensures Count(Onderkasten, cells) == CellsTotal(Onderkasten, cells)
    ensures forall text :: Contains(Lower(text), "wand-hoekkast") || Contains(Lower(text), "kleinere dieptes bij onderkast")
              ==> CellScore(Onderkasten, Some(text)) == 0
  {
    RawTotalByCells(Onderkasten, cells);
    forall text | Contains(Lower(text), "wand-hoekkast") || Contains(Lower(text), "kleinere dieptes bij onderkast")
      ensures CellScore(Onderkasten, Some(text)) == 0
    {
      assert Vetoed(Onderkasten, text);
      VetoedCellScoresNothing(Onderkasten, text);
    }
  }

  /** `count_Hangkasten`: the matches of its two phrases, a wall corner unit matching both. */
  lemma HangkastenCount(cells: Cells)
    ensures |Tally(Hangkasten, cells)| == 2
    ensures Count(Hangkasten, cells) == CellsTotal(Hangkasten, cells)
  {
    RawTotalByCells(Hangkasten, cells);
  }

  /** `count_plinten`: half the matches rounded down, except that a single match counts 1. */
  lemma PlintenCount(cells: Cells)
    ensures |Tally(Plinten, cells)| == 3
    ensures var n := RawTotal(Plinten, cells);
      Count(Plinten, cells) == if n == 1 then 1 else n / 2
  {
  }

  /** `count_Kroonlijsten`: the cells holding "Kroonlijst". */
  lemma KroonlijstenCount(cells: Cells)
    ensures Count(Kroonlijsten, cells) == PhraseTally(Kroonlijsten, cells, "Kroonlijst") <= |cells|
  {
    SinglePhrasePlainCount(Kroonlijsten, cells);
  }

  /** `count_Lichtlijsten`: the cells holding "Lichtlijsten". */
  lemma LichtlijstenCount(cells: Cells)
    ensures Count(Lichtlijsten, cells) == PhraseTally(Lichtlijsten, cells, "Lichtlijsten") <= |cells|
  {
    SinglePhrasePlainCount(Lichtlijsten, cells);
  }

  /** `count_Werkbladen`: the matches of the two worktop phrases. */
  lemma WerkbladenCount(cells: Cells)
    ensures |Tally(Werkbladen, cells)| == 2
    ensures Count(Werkbladen, cells) == CellsTotal(Werkbladen, cells)
  {
    RawTotalByCells(Werkbladen, cells);
  }

  /** `count_Spoelbak_kraan`: 3 as soon as any of its phrases matches, else 0. */
  lemma SpoelbakKraanCount(cells: Cells)
    ensures |Tally(SpoelbakKraan, cells)| == 3
    ensures Count(SpoelbakKraan, cells) == if RawTotal(SpoelbakKraan, cells) >= 1 then 3 else 0
  {
  }

  /** `count_Kookplaat`: twice the matches. */
  lemma KookplaatCount(cells: Cells)
    ensures |Tally(Kookplaat, cells)| == 2
    ensures Count(Kookplaat, cells) == 2 * CellsTotal(Kookplaat, cells)
  {
    RawTotalByCells(Kookplaat, cells);
  }

  /** `count_Dampkap`: 1 as soon as any hood phrase matches, else 0. */
  lemma DampkapCount(cells: Cells)
    ensures |Tally(Dampkap, cells)| == 4
    ensures Count(Dampkap, cells) == if RawTotal(Dampkap, cells) >= 1 then 1 else 0
  {
  }

  /** `count_Oven`: 1 when some cell holds "oven", else 0. */
  lemma OvenCount(cells: Cells)
    ensures Count(Oven, cells) == if PhraseTally(Oven, cells, "oven") >= 1 then 1 else 0
  {
    SinglePhraseCount(Oven, cells);
  }

  /** `count_Microgolfoven`: 1 when some cell holds "magnetron", else 0. */
  lemma MicrogolfovenCount(cells: Cells)
    ensures Count(Microgolfoven, cells) == if PhraseTally(Microgolfoven, cells, "magnetron") >= 1 then 1 else 0
  {
    SinglePhraseCount(Microgolfoven, cells);
  }

  /** `count_koelkast`: twice the matches of its three phrases. */
  lemma KoelkastCount(cells: Cells)
    ensures |Tally(Koelkast, cells)| == 3
    ensures Count(Koelkast, cells) == 2 * CellsTotal(Koelkast, cells)
  {
    RawTotalByCells(Koelkast, cells);
  }

  /** `count_Vaatwasser`: the matches of the three door-front phrases. */
  lemma VaatwasserCount(cells: Cells)
    ensures |Tally(Vaatwasser, cells)| == 3
    ensures Count(Vaatwasser, cells) == CellsTotal(Vaatwasser, cells)
  {
    RawTotalByCells(Vaatwasser, cells);
  }

  /** `count_Passtukken`: the cells holding "passtuk". */
  lemma PasstukkenCount(cells: Cells)
    ensures Count(Passtukken, cells) == PhraseTally(Passtukken, cells, "passtuk") <= |cells|
  {
    SinglePhrasePlainCount(Passtukken, cells);
  }

  /** `count_afdekbodems`: the cells holding "afdekbodem". */
  lemma AfdekbodemsCount(cells: Cells)
    ensures Count(Afdekbodems, cells) == PhraseTally(Afdekbodems, cells, "afdekbodem") <= |cells|
  {
    SinglePhrasePlainCount(Afdekbodems, cells);
  }

  /** `count_Zij_steunwand`: the matches of its seventeen panel and foot codes. */
  lemma ZijSteunwandCount(cells: Cells)
    ensures |Tally(ZijSteunwand, cells)| == 17
    ensures Count(ZijSteunwand, cells) == CellsTotal(ZijSteunwand, cells)
  {
    RawTotalByCells(ZijSteunwand, cells);
  }

  /** `count_Andere`: 5 when some cell holds "LineN", else 0. */
  lemma AndereCount(cells: Cells)
    ensures Count(Andere, cells) == if PhraseTally(Andere, cells, "LineN") >= 1 then 5 else 0
  {
    SinglePhraseCount(Andere, cells);
  }

  /** `count_Verlichting`: the cells holding "LNDERB". */
  lemma VerlichtingCount(cells: Cells)
    ensures Count(Verlichting, cells) == PhraseTally(Verlichting, cells, "LNDERB") <= |cells|
  {
    SinglePhrasePlainCount(Verlichting, cells);
  }
}
