/**
 * The string operations of Rust's standard library that the engine relies on:
 * `str::starts_with`, `str::replace`, `BufRead::lines` and writing each line
 * back followed by a newline.
 */
module Text {

  /** `s.starts_with(prefix)` */
  predicate StartsWith(s: string, prefix: string) {
    |prefix| <= |s| && s[..|prefix|] == prefix
  }

  /** True when no occurrence of `pat` starts anywhere in `s`. */
  predicate NoOccurrence(s: string, pat: string) {
    forall k | 0 <= k <= |s| :: !StartsWith(s[k..], pat)
  }

  /**
   * `s.replace(pat, to)`: the occurrences of `pat` are found from left to right,
   * never overlapping, and each one is replaced by `to`.
   */
  function ReplaceAll(s: string, pat: string, to: string): string
    requires pat != []
    decreases |s|
  {
    if |s| < |pat| then s
    else if StartsWith(s, pat) then to + ReplaceAll(s[|pat|..], pat, to)
    else [s[0]] + ReplaceAll(s[1..], pat, to)
  }

  /** A text in which `pat` does not occur is left as it is. */
  lemma {:induction false} ReplaceAllNoOccurrence(s: string, pat: string, to: string)
    requires pat != [] && NoOccurrence(s, pat)
    ensures ReplaceAll(s, pat, to) == s
    decreases |s|
  {
    if |s| >= |pat| {
      assert !StartsWith(s[0..], pat) && s[0..] == s;
      forall k | 0 <= k <= |s[1..]| ensures !StartsWith(s[1..][k..], pat) {
        assert s[1..][k..] == s[k + 1..];
      }
      ReplaceAllNoOccurrence(s[1..], pat, to);
    }
  }

  /** Replacing never brings in a '\n' that neither the text nor the replacement had. */
  lemma {:induction false} ReplaceAllNoNewline(s: string, pat: string, to: string)
    requires pat != [] && '\n' !in s && '\n' !in to
    ensures '\n' !in ReplaceAll(s, pat, to)
    decreases |s|
  {
    if |s| >= |pat| {
      if StartsWith(s, pat) {
        ReplaceAllNoNewline(s[|pat|..], pat, to);
      } else {
        ReplaceAllNoNewline(s[1..], pat, to);
      }
    }
  }

  /** Where no occurrence starts at the first character, that character is copied unchanged. */
  lemma ReplaceAllNotAtStart(s: string, pat: string, to: string)
    requires pat != [] && s != [] && !StartsWith(s, pat)
    ensures ReplaceAll(s, pat, to) == [s[0]] + ReplaceAll(s[1..], pat, to)
  {
    if |s| < |pat| {
      assert ReplaceAll(s[1..], pat, to) == s[1..];
      assert s == [s[0]] + s[1..];
    }
  }

  /** Where no occurrence starts inside the prefix `a`, the prefix is copied unchanged. */
  lemma {:induction false} ReplaceAllSkip(a: string, b: string, pat: string, to: string)
    requires pat != []
    requires forall k | 0 <= k < |a| :: !StartsWith((a + b)[k..], pat)
    ensures ReplaceAll(a + b, pat, to) == a + ReplaceAll(b, pat, to)
    decreases |a|
  {
    if a == [] {
      assert a + b == b;
    } else {
      var s := a + b;
      assert s[0..] == s;
      ReplaceAllNotAtStart(s, pat, to);
      assert s[1..] == a[1..] + b;
      forall k | 0 <= k < |a[1..]| ensures !StartsWith((a[1..] + b)[k..], pat) {
        assert (a[1..] + b)[k..] == s[k + 1..];
      }
      ReplaceAllSkip(a[1..], b, pat, to);
      assert [a[0]] + a[1..] == a;
    }
  }

  /** A prefix holding no character that can begin `pat` is copied unchanged. */
  lemma ReplaceAllFreePrefix(a: string, b: string, pat: string, to: string)
    requires pat != [] && pat[0] !in a
    ensures ReplaceAll(a + b, pat, to) == a + ReplaceAll(b, pat, to)
  {
    forall k | 0 <= k < |a| ensures !StartsWith((a + b)[k..], pat) {
      assert (a + b)[k..][0] == a[k];
    }
    ReplaceAllSkip(a, b, pat, to);
  }

  /** An occurrence at the very start is replaced, and the search goes on after it. */
  lemma ReplaceAllAtStart(b: string, pat: string, to: string)
    requires pat != []
    ensures ReplaceAll(pat + b, pat, to) == to + ReplaceAll(b, pat, to)
  {
    assert StartsWith(pat + b, pat) && (pat + b)[|pat|..] == b;
  }

  /** Length of the first line of `s`: the index of its first '\n', or |s| when it has none. */
  function LineLength(s: string): (n: nat)
    ensures n <= |s| && '\n' !in s[..n]
    ensures n < |s| ==> s[n] == '\n'
    decreases |s|
  {
    if s == [] || s[0] == '\n' then 0
    else
      var m := LineLength(s[1..]);
      assert s[..m + 1] == [s[0]] + s[1..][..m];
      m + 1
  }

  /**
   * `BufRead::lines`: the text cut at every '\n', the '\n' itself dropped; a
   * final piece without a '\n' is a line too, and a final '\n' does not start
   * another, empty, line.
   */
  function SplitLines(s: string): (lines: seq<string>)
    decreases |s|
  {
    if s == [] then []
    else if LineLength(s) == |s| then [s]
    else [s[..LineLength(s)]] + SplitLines(s[LineLength(s) + 1..])
  }

  /** No line that `lines` yields holds a '\n'. */
  lemma {:induction false} SplitLinesNoNewline(s: string)
    ensures forall i | 0 <= i < |SplitLines(s)| :: '\n' !in SplitLines(s)[i]
    decreases |s|
  {
    if s != [] {
      if LineLength(s) < |s| {
        SplitLinesNoNewline(s[LineLength(s) + 1..]);
        SplitLinesCons(s);
      } else {
        assert s[..LineLength(s)] == s;
      }
    }
  }

  /** The lines written out one after the other, each followed by one '\n'. */
  function JoinLines(lines: seq<string>): string {
    if lines == [] then [] else lines[0] + "\n" + JoinLines(lines[1..])
  }

  /** Writing one more line appends that line and its '\n' to what was written. */
  lemma {:induction false} JoinLinesAppend(lines: seq<string>, line: string)
    ensures JoinLines(lines + [line]) == JoinLines(lines) + line + "\n"
    decreases |lines|
  {
    if lines == [] {
      assert [] + [line] == [line];
      assert ([line])[1..] == [];
    } else {
      assert (lines + [line])[1..] == lines[1..] + [line];
      JoinLinesAppend(lines[1..], line);
    }
  }

  /** The first line of `line + "\n" + rest` is `line`. */
  lemma FirstLine(line: string, rest: string)
    requires '\n' !in line
    ensures LineLength(line + "\n" + rest) == |line|
  {
    var s := line + "\n" + rest;
    assert s[|line|] == '\n';
  }

  /** Cutting written lines apart again gives back exactly those lines. */
  lemma {:induction false} SplitJoin(lines: seq<string>)
    requires forall i | 0 <= i < |lines| :: '\n' !in lines[i]
    ensures SplitLines(JoinLines(lines)) == lines
    decreases |lines|
  {
    if lines != [] {
      var rest := JoinLines(lines[1..]);
      var s := JoinLines(lines);
      assert s == lines[0] + "\n" + rest;
      FirstLine(lines[0], rest);
      assert s[..|lines[0]|] == lines[0];
      assert s[|lines[0]| + 1..] == rest;
      SplitJoin(lines[1..]);
      assert lines == [lines[0]] + lines[1..];
    }
  }

  /** `s` with a final '\n' added when it is not empty and lacks one. */
  function Terminated(s: string): string {
    if s == [] || s[|s| - 1] == '\n' then s else s + "\n"
  }

  /**
   * Writing the lines of a text back, each followed by '\n', gives the text
   * again, except that a last line that had no '\n' now has one.
   */
  lemma {:induction false} JoinSplit(s: string)
    ensures JoinLines(SplitLines(s)) == Terminated(s)
    decreases |s|
  {
    if s != [] {
      if LineLength(s) < |s| {
        JoinSplit(s[LineLength(s) + 1..]);
        JoinSplitCons(s);
      } else {
        JoinSplitOneLine(s);
      }
    }
  }

  /** JoinSplit for a text with a '\n', given JoinSplit for what follows its first line. */
  lemma JoinSplitCons(s: string)
    requires s != [] && LineLength(s) < |s|
    requires JoinLines(SplitLines(s[LineLength(s) + 1..])) == Terminated(s[LineLength(s) + 1..])
    ensures JoinLines(SplitLines(s)) == Terminated(s)
  {
    JoinSplitStep(s);
    JoinSplitRegroup(s);
  }

  /** A text that is one line without '\n' is written back with a '\n' added. */
  lemma JoinSplitOneLine(s: string)
    requires s != [] && LineLength(s) == |s|
    ensures JoinLines(SplitLines(s)) == s + "\n" && s[|s| - 1] != '\n'
  {
    JoinLinesCons(s, []);
    assert s[..LineLength(s)] == s;
    assert s[|s| - 1] in s[..LineLength(s)];
  }

  /** The first line and its '\n', then the rest written back, is the text, with a '\n' added when the rest lacked it. */
  lemma JoinSplitRegroup(s: string)
    requires s != [] && LineLength(s) < |s|
    ensures s[..LineLength(s)] + "\n" + Terminated(s[LineLength(s) + 1..]) == Terminated(s)
  {
    LineBreak(s, LineLength(s));
    TerminatedAfterLine(s[..LineLength(s)], s[LineLength(s) + 1..]);
  }

  /** A text with a '\n' at `n` is what comes before it, that '\n' and what comes after. */
  lemma LineBreak(s: string, n: nat)
    requires n < |s| && s[n] == '\n'
    ensures s == s[..n] + "\n" + s[n + 1..]
  {
    assert s[n..n + 1] == "\n";
    assert s == s[..n] + s[n..n + 1] + s[n + 1..];
  }

  /** A line and its '\n' in front of a text do not change whether a final '\n' is added. */
  lemma TerminatedAfterLine(line: string, rest: string)
    ensures line + "\n" + Terminated(rest) == Terminated(line + "\n" + rest)
  {
    var t := line + "\n" + rest;
    assert t[|t| - 1] == if rest == [] then '\n' else rest[|rest| - 1];
    if rest == [] {
      assert t == line + "\n";
    } else if rest[|rest| - 1] != '\n' {
      AppendAssociative(line + "\n", rest, "\n");
    }
  }

  /** Text appended piece by piece does not depend on the grouping. */
  lemma AppendAssociative(a: string, b: string, c: string)
    ensures a + (b + c) == a + b + c
  {
  }

  /** Writing a first line in front of others writes it and its '\n' first. */
  lemma JoinLinesCons(line: string, tail: seq<string>)
    ensures JoinLines([line] + tail) == line + "\n" + JoinLines(tail)
  {
    assert ([line] + tail)[1..] == tail;
  }

  /** Reading lines takes the first line, then reads on after its '\n'. */
  lemma SplitLinesCons(s: string)
    requires s != [] && LineLength(s) < |s|
    ensures SplitLines(s) == [s[..LineLength(s)]] + SplitLines(s[LineLength(s) + 1..])
  {
  }

  /** One step of JoinSplit: the first line and its '\n' are written back, then the rest. */
  lemma JoinSplitStep(s: string)
    requires s != [] && LineLength(s) < |s|
    ensures JoinLines(SplitLines(s)) == s[..LineLength(s)] + "\n" + JoinLines(SplitLines(s[LineLength(s) + 1..]))
  {
    SplitLinesCons(s);
    JoinLinesCons(s[..LineLength(s)], SplitLines(s[LineLength(s) + 1..]));
  }
}
