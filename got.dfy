/**
 * The answer parser at the end of `get_output` in GOT.py: the completion text is cut into
 * lines, and every line holding a colon contributes the text after its first colon, stripped.
 * The completion itself is a parameter.
 */
module Got {
  import opened Wrappers
  import opened Text

  /** What one line contributes: the stripped text after its first colon, if it has one. */
  function AnswerOf(line: string): (r: Option<string>)
    ensures r.None? <==> ':' !in line
  {
    var i := FindChar(line, ':');
    if i == -1 then None else Some(Strip(line[i + 1..]))
  }

  /** What `parse` yields for the first `i` lines, in line order: the shape of a loop that
      appends whatever each line yields. */
  function Collect(parse: string -> Option<string>, lines: seq<string>, i: nat): seq<string>
    requires i <= |lines|
    decreases i
  {
    if i == 0 then []
    else
      var prev := Collect(parse, lines, i - 1);
      match parse(lines[i - 1])
      case None => prev
      case Some(a) => prev + [a]
  }

  /** The positions among the first `i` lines for which `parse` yields something. */
  function Hits(parse: string -> Option<string>, lines: seq<string>, i: nat): seq<nat>
    requires i <= |lines|
    decreases i
  {
    if i == 0 then [] else Hits(parse, lines, i - 1) + (if parse(lines[i - 1]).Some? then [i - 1] else [])
  }

  lemma {:induction false} HitsSpec(parse: string -> Option<string>, lines: seq<string>, i: nat)
    requires i <= |lines|
    ensures forall j :: 0 <= j < |Hits(parse, lines, i)| ==> Hits(parse, lines, i)[j] < i && parse(lines[Hits(parse, lines, i)[j]]).Some?
    ensures forall j, k :: 0 <= j < k < |Hits(parse, lines, i)| ==> Hits(parse, lines, i)[j] < Hits(parse, lines, i)[k]
    ensures forall m :: 0 <= m < i && parse(lines[m]).Some? ==> m in Hits(parse, lines, i)
    decreases i
  {
    if i > 0 {
      HitsSpec(parse, lines, i - 1);
    }
  }

  lemma {:induction false} CollectFromHits(parse: string -> Option<string>, lines: seq<string>, i: nat)
    requires i <= |lines|
    ensures |Collect(parse, lines, i)| == |Hits(parse, lines, i)|
    ensures forall j :: 0 <= j < |Collect(parse, lines, i)| ==>
      Hits(parse, lines, i)[j] < |lines| && parse(lines[Hits(parse, lines, i)[j]]) == Some(Collect(parse, lines, i)[j])
    decreases i
  {
    if i > 0 {
      CollectFromHits(parse, lines, i - 1);
    }
  }

  /** What the first `i` lines yield depends on those lines only. */
  lemma {:induction false} CollectPrefix(parse: string -> Option<string>, x: seq<string>, y: seq<string>, i: nat)
    requires i <= |x| && i <= |y|
    requires forall j :: 0 <= j < i ==> x[j] == y[j]
    ensures Collect(parse, x, i) == Collect(parse, y, i)
    decreases i
  {
    if i > 0 {
      CollectPrefix(parse, x, y, i - 1);
    }
  }

  lemma {:induction false} CollectAppend(parse: string -> Option<string>, a: seq<string>, b: seq<string>, k: nat)
    requires k <= |b|
    ensures Collect(parse, a + b, |a| + k) == Collect(parse, a, |a|) + Collect(parse, b, k)
    decreases k
  {
    if k == 0 {
      CollectPrefix(parse, a + b, a, |a|);
    } else {
      CollectAppend(parse, a, b, k - 1);
      assert (a + b)[|a| + k - 1] == b[k - 1];
    }
  }

  /** The answers of `lines`, in line order. */
  function Answers(lines: seq<string>): seq<string>
  {
    Collect(AnswerOf, lines, |lines|)
  }

  /** `get_output` after the completion: the answers of the completion's lines. */
  method ExtractAnswers(output: string) returns (data: seq<string>)
    ensures data == Answers(Split(output, '\n'))
  {
    data := AnswersOfLines(Split(output, '\n'));
  }

  /** The loop over the lines: append the stripped text after the first colon of each line
      that has one. */
  method AnswersOfLines(lines: seq<string>) returns (data: seq<string>)
    ensures data == Answers(lines)
  {
    data := [];
    for i := 0 to |lines|
      invariant data == Collect(AnswerOf, lines, i)
    {
      var line := lines[i];
      var colon := FindChar(line, ':');
      if colon != -1 {
        data := data + [Strip(line[colon + 1..])];
      }
    }
  }

  /** The positions of the lines with a colon. */
  function ColonLines(lines: seq<string>): seq<nat>
  {
    Hits(AnswerOf, lines, |lines|)
  }

  /** `ColonLines` lists, in increasing order, exactly the positions of the lines that hold a
      colon. */
  lemma ColonLinesSpec(lines: seq<string>)
    ensures forall j :: 0 <= j < |ColonLines(lines)| ==> ColonLines(lines)[j] < |lines| && ':' in lines[ColonLines(lines)[j]]
    ensures forall j, k :: 0 <= j < k < |ColonLines(lines)| ==> ColonLines(lines)[j] < ColonLines(lines)[k]
    ensures forall m :: 0 <= m < |lines| && ':' in lines[m] ==> m in ColonLines(lines)
  {
    HitsSpec(AnswerOf, lines, |lines|);
  }

  /** The j-th answer comes from the j-th line holding a colon: one answer per such line, none
      from any other line, in line order. */
  lemma AnswersFromColonLines(lines: seq<string>)
    ensures |Answers(lines)| == |ColonLines(lines)|
    ensures forall j :: 0 <= j < |Answers(lines)| ==>
      ColonLines(lines)[j] < |lines| && AnswerOf(lines[ColonLines(lines)[j]]) == Some(Answers(lines)[j])
  {
    CollectFromHits(AnswerOf, lines, |lines|);
  }

  /** There are never more answers than lines. */
  lemma AnswersBound(lines: seq<string>)
    ensures |Answers(lines)| <= |lines|
  {
    AnswersFromColonLines(lines);
    ColonLinesSpec(lines);
    StrictlyIncreasingBound(ColonLines(lines), |lines|);
  }

  lemma {:induction false} StrictlyIncreasingBound(ix: seq<nat>, n: nat)
    requires forall j :: 0 <= j < |ix| ==> ix[j] < n
    requires forall j, k :: 0 <= j < k < |ix| ==> ix[j] < ix[k]
    ensures |ix| <= n
    decreases |ix|
  {
    if ix != [] {
      var last := ix[|ix| - 1];
      var init := ix[..|ix| - 1];
      StrictlyIncreasingBound(init, last);
    }
  }

  /** The parse works line by line: the answers of two blocks of lines are those of the first
      followed by those of the second. */
  lemma AnswersAppend(a: seq<string>, b: seq<string>)
    ensures Answers(a + b) == Answers(a) + Answers(b)
  {
    CollectAppend(AnswerOf, a, b, |b|);
  }

  /** A line without a colon adds nothing; a line with one adds its answer at the end. */
  lemma LineEffect(lines: seq<string>, line: string)
    ensures ':' !in line ==> Answers(lines + [line]) == Answers(lines)
    ensures ':' in line ==> Answers(lines + [line]) == Answers(lines) + [AnswerOf(line).value]
  {
    CollectPrefix(AnswerOf, lines + [line], lines, |lines|);
  }

  /** Only the first colon splits: a line `key:value` with no colon in `key` answers the
      stripped `value`, whatever colons `value` holds. */
  lemma FirstColonOnly(key: string, value: string)
    requires ':' !in key
    ensures AnswerOf(key + ":" + value) == Some(Strip(value))
  {
    var line := key + ":" + value;
    assert line[|key|] == ':';
    assert line[..|key|] == key;
    assert line[|key| + 1..] == value;
  }

  const NameLine := "NAAM: Jan"
  const StrayLine := "nee"
  const TimeLine := "UUR: 9:30"

  lemma NameLineExample()
    ensures AnswerOf(NameLine) == Some("Jan")
  {
    assert Strip(" Jan") == "Jan" by {
      assert SpaceRunEnd(" Jan", 0) == 1;
    }
    assert NameLine == "NAAM" + ":" + " Jan";
    FirstColonOnly("NAAM", " Jan");
  }

  lemma StrayLineExample()
    ensures AnswerOf(StrayLine) == None
  {
    assert ':' !in StrayLine;
  }

  lemma TimeLineExample()
    ensures AnswerOf(TimeLine) == Some("9:30")
  {
    assert Strip(" 9:30") == "9:30" by {
      assert SpaceRunEnd(" 9:30", 0) == 1;
    }
    assert TimeLine == "UUR" + ":" + " 9:30";
    FirstColonOnly("UUR", " 9:30");
  }

  /** Three lines yield what each of them yields, in order. */
  lemma {:induction false} CollectThree(parse: string -> Option<string>, a: string, b: string, c: string)
    ensures Collect(parse, [a, b, c], 3) == Yield(parse(a)) + Yield(parse(b)) + Yield(parse(c))
  {
    var lines := [a, b, c];
    assert Collect(parse, lines, 1) == Yield(parse(a));
    assert Collect(parse, lines, 2) == Yield(parse(a)) + Yield(parse(b));
  }

  function Yield(o: Option<string>): seq<string>
  {
    match o
    case None => []
    case Some(x) => [x]
  }

  /** A completion with an answer, a stray line and a time of day: the stray line adds
      nothing and the time keeps its own colon. */
  lemma ParseExample()
    ensures Answers([NameLine, StrayLine, TimeLine]) == ["Jan", "9:30"]
  {
    NameLineExample();
    StrayLineExample();
    TimeLineExample();
    CollectThree(AnswerOf, NameLine, StrayLine, TimeLine);
  }
}
