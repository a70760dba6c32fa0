/**
 * The string operations of Python that the modelled scripts rely on: `str.lower`,
 * `str.islower` on one character, `in` on strings, `re.search` with `\b...\b` and
 * IGNORECASE, `str.split` on one separator character, `str.strip` and `str.find`.
 *
 * Python's versions are Unicode-aware; here letters are the ASCII letters, a word
 * character (`\w`) is an ASCII letter, digit or `_`, and whitespace is the ASCII
 * whitespace Python's `str.isspace` accepts.
 */
module Text {

  /** `c.islower()` for a single character. */
  predicate IsLower(c: char) { 'a' <= c <= 'z' }

  predicate IsUpper(c: char) { 'A' <= c <= 'Z' }

  function LowerChar(c: char): (r: char)
    ensures !IsUpper(r)
    ensures IsUpper(c) ==> IsLower(r) && r as int == c as int + 32
    ensures !IsUpper(c) ==> r == c
  {
    if IsUpper(c) then (c as int + 32) as char else c
  }

  /** `s.lower()`. */
  function Lower(s: string): (r: string)
    ensures |r| == |s|
    ensures forall i :: 0 <= i < |s| ==> r[i] == LowerChar(s[i])
  {
    seq(|s|, i requires 0 <= i < |s| => LowerChar(s[i]))
  }

  lemma LowerIdempotent(s: string)
    ensures Lower(Lower(s)) == Lower(s)
  {
  }

  lemma LowerAppend(s: string, t: string)
    ensures Lower(s + t) == Lower(s) + Lower(t)
  {
  }

  /** `sub` occurs in `s` starting at position `p`. */
  predicate OccursAt(s: string, sub: string, p: int)
  {
    0 <= p <= |s| - |sub| && s[p..p + |sub|] == sub
  }

  /** `sub in s`. */
  predicate Contains(s: string, sub: string)
  {
    exists p | 0 <= p <= |s| - |sub| :: OccursAt(s, sub, p)
  }

  lemma ContainsWitness(s: string, sub: string, p: int)
    requires OccursAt(s, sub, p)
    ensures Contains(s, sub)
  {
  }

  /** Text can only gain occurrences when more text is put around it. */
  lemma ContainsExtend(pre: string, s: string, post: string, sub: string)
    requires Contains(s, sub)
    ensures Contains(pre + s + post, sub)
  {
    var p :| OccursAt(s, sub, p);
    assert OccursAt(s, sub, p);
    var t := pre + s + post;
    assert t[|pre| + p..|pre| + p + |sub|] == s[p..p + |sub|];
    assert OccursAt(t, sub, |pre| + p);
  }

  /** `\w` in a regular expression. */
  predicate IsWordChar(c: char)
  {
    'a' <= c <= 'z' || 'A' <= c <= 'Z' || '0' <= c <= '9' || c == '_'
  }

  lemma LowerKeepsWordChars(c: char)
    ensures IsWordChar(LowerChar(c)) == IsWordChar(c)
  {
  }

  predicate WordCharAt(s: string, i: int)
  {
    0 <= i < |s| && IsWordChar(s[i])
  }

  /** `\b` at position `i`: a word character on exactly one side of it. */
  predicate BoundaryAt(s: string, i: int)
  {
    WordCharAt(s, i - 1) != WordCharAt(s, i)
  }

  /** `w` occurs in `s` at `p` with a word boundary before and after it. */
  predicate WordAt(s: string, w: string, p: int)
  {
    OccursAt(s, w, p) && BoundaryAt(s, p) && BoundaryAt(s, p + |w|)
  }

  /** `re.search(r"\b" + re.escape(w) + r"\b", s)` finds a match. */
  predicate ContainsWord(s: string, w: string)
  {
    exists p | 0 <= p <= |s| - |w| :: WordAt(s, w, p)
  }

  /** A whole-word match is in particular a substring match. */
  lemma ContainsWordContains(s: string, w: string)
    requires ContainsWord(s, w)
    ensures Contains(s, w)
  {
  }

  /** `s.split(sep)`: the pieces between separators, at least one. */
  function Split(s: string, sep: char): (r: seq<string>)
    ensures |r| >= 1
    ensures forall k :: 0 <= k < |r| ==> sep !in r[k]
    decreases |s|
  {
    if |s| == 0 then [""]
    else if s[0] == sep then [""] + Split(s[1..], sep)
    else
      var rest := Split(s[1..], sep);
      [[s[0]] + rest[0]] + rest[1..]
  }

  /** `sep.join(pieces)`. */
  function Join(pieces: seq<string>, sep: char): string
    requires |pieces| >= 1
    decreases |pieces|
  {
    if |pieces| == 1 then pieces[0] else pieces[0] + [sep] + Join(pieces[1..], sep)
  }

  /** Splitting loses nothing: joining the pieces gives the text back. */
  lemma {:induction false} JoinSplit(s: string, sep: char)
    ensures Join(Split(s, sep), sep) == s
    decreases |s|
  {
    if |s| == 0 {
    } else if s[0] == sep {
      JoinSplit(s[1..], sep);
      assert s == [sep] + s[1..];
    } else {
      var rest := Split(s[1..], sep);
      JoinSplit(s[1..], sep);
      if |rest| == 1 {
        assert s == [s[0]] + s[1..];
      } else {
        calc {
          Join([[s[0]] + rest[0]] + rest[1..], sep);
          [s[0]] + rest[0] + [sep] + Join(rest[1..], sep);
          [s[0]] + Join(rest, sep);
          s;
        }
      }
    }
  }

  /** Pieces free of the separator are split apart again exactly. */
  lemma {:induction false} SplitJoin(pieces: seq<string>, sep: char)
    requires |pieces| >= 1
    requires forall k :: 0 <= k < |pieces| ==> sep !in pieces[k]
    ensures Split(Join(pieces, sep), sep) == pieces
    decreases |pieces|, |pieces[0]|
  {
    var head := pieces[0];
    if |pieces| == 1 {
      if |head| > 0 {
        SplitJoin([head[1..]], sep);
        assert head[1..] + [] == head[1..];
        assert Join([head[1..]], sep) == head[1..];
        assert Split(head[1..], sep) == [head[1..]];
        assert [head[0]] + head[1..] == head;
      }
    } else if |head| == 0 {
      SplitJoin(pieces[1..], sep);
      var s := Join(pieces, sep);
      assert s == [sep] + Join(pieces[1..], sep);
      assert s[1..] == Join(pieces[1..], sep);
      assert pieces == [""] + pieces[1..];
    } else {
      var shorter := [head[1..]] + pieces[1..];
      assert forall k :: 0 <= k < |shorter| ==> sep !in shorter[k] by {
        forall k | 0 <= k < |shorter| ensures sep !in shorter[k] {
          if k > 0 { assert shorter[k] == pieces[k]; }
        }
      }
      SplitJoin(shorter, sep);
      var s := Join(pieces, sep);
      assert Join(shorter, sep) == head[1..] + [sep] + Join(pieces[1..], sep) by {
        assert shorter[1..] == pieces[1..];
      }
      assert s == [head[0]] + Join(shorter, sep);
      assert s[1..] == Join(shorter, sep);
      assert s[0] == head[0] && s[0] != sep;
      assert [head[0]] + head[1..] == head;
      assert pieces == [head] + shorter[1..];
    }
  }

  /** Whitespace for `str.strip()`. */
  predicate IsSpace(c: char)
  {
    c == ' ' || 9 <= c as int <= 13 || 28 <= c as int <= 31
  }
  /** Where the whitespace run of `s` starting at `k` ends. */
  function SpaceRunEnd(s: string, k: nat): (e: nat)
    requires k <= |s|
    ensures k <= e <= |s|
    decreases |s| - k
  {
    if k < |s| && IsSpace(s[k]) then SpaceRunEnd(s, k + 1) else k
  }

  /** The run is all whitespace and stops at the first other character. */
  lemma {:induction false} SpaceRunEndSpec(s: string, k: nat)
    requires k <= |s|
    ensures forall j :: k <= j < SpaceRunEnd(s, k) ==> IsSpace(s[j])
    ensures SpaceRunEnd(s, k) < |s| ==> !IsSpace(s[SpaceRunEnd(s, k)])
    decreases |s| - k
  {
    if k < |s| && IsSpace(s[k]) {
      SpaceRunEndSpec(s, k + 1);
    }
  }

  /** Where the whitespace run of `s` ending at `k` starts, going no further left than `lo`. */
  function SpaceRunStart(s: string, lo: nat, k: nat): (b: nat)
    requires lo <= k <= |s|
    ensures lo <= b <= k
    decreases k
  {
    if lo < k && IsSpace(s[k - 1]) then SpaceRunStart(s, lo, k - 1) else k
  }

  /** The run is all whitespace and stops, unless at `lo`, just after another character. */
  lemma {:induction false} SpaceRunStartSpec(s: string, lo: nat, k: nat)
    requires lo <= k <= |s|
    ensures forall j :: SpaceRunStart(s, lo, k) <= j < k ==> IsSpace(s[j])
    ensures lo < SpaceRunStart(s, lo, k) ==> !IsSpace(s[SpaceRunStart(s, lo, k) - 1])
    decreases k
  {
    if lo < k && IsSpace(s[k - 1]) {
      SpaceRunStartSpec(s, lo, k - 1);
    }
  }

  /** `s.strip()`: `s` without its leading and trailing whitespace. */
  function Strip(s: string): (r: string)
    ensures |r| <= |s|
  {
    var i := SpaceRunEnd(s, 0);
    s[i..SpaceRunStart(s, i, |s|)]
  }

  /** The stripped text is `s` less whitespace at both ends, and it neither starts nor ends
      with whitespace. */
  lemma StripSpec(s: string)
    ensures |Strip(s)| <= |s|
    ensures |Strip(s)| > 0 ==> !IsSpace(Strip(s)[0]) && !IsSpace(Strip(s)[|Strip(s)| - 1])
    ensures SurroundedBySpace(s, Strip(s), SpaceRunEnd(s, 0))
  {
    var i := SpaceRunEnd(s, 0);
    SpaceRunEndSpec(s, 0);
    SpaceRunStartSpec(s, i, |s|);
    TrimmedSpec(s, i, SpaceRunStart(s, i, |s|), Strip(s));
  }

  /** Cutting a whitespace run off the front and one off the back, each stopping at a
      character that is not whitespace, leaves `s` surrounded by space. */
  lemma TrimmedSpec(s: string, i: nat, j: nat, r: string)
    requires i <= j <= |s| && r == s[i..j]
    requires forall k :: 0 <= k < i ==> IsSpace(s[k])
    requires i < |s| ==> !IsSpace(s[i])
    requires forall k :: j <= k < |s| ==> IsSpace(s[k])
    requires i < j ==> !IsSpace(s[j - 1])
    ensures |r| <= |s|
    ensures |r| > 0 ==> !IsSpace(r[0]) && !IsSpace(r[|r| - 1])
    ensures SurroundedBySpace(s, r, i)
  {
    if |r| > 0 {
      assert r[0] == s[i];
      assert r[|r| - 1] == s[j - 1];
    }
    assert s[i..i + |r|] == r;
  }

  /** `s` is `r` at position `i` with nothing but whitespace before and after it. */
  predicate SurroundedBySpace(s: string, r: string, i: int)
  {
    OccursAt(s, r, i)
    && (forall k :: 0 <= k < i ==> IsSpace(s[k]))
    && (forall k :: i + |r| <= k < |s| ==> IsSpace(s[k]))
  }

  /** `s.find(c)`: the first index of `c` in `s`, or -1. */
  function FindChar(s: string, c: char): (i: int)
    ensures i == -1 <==> c !in s
    ensures i != -1 ==> 0 <= i < |s| && s[i] == c && c !in s[..i]
    decreases |s|
  {
    if |s| == 0 then -1
    else if s[0] == c then 0
    else
      var j := FindChar(s[1..], c);
      assert s == [s[0]] + s[1..];
      if j == -1 then -1
      else
        assert s[..j + 1] == [s[0]] + s[1..][..j];
        j + 1
  }
}
