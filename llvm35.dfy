/**
 * The text step of `llvm35_transform` (src/lib.rs): rewriting the metadata
 * lines of an emitted LLVM IR module into the older "metadata !..." syntax
 * that LLVM 3.5's `opt` reads. Reading and writing the file and running `opt`
 * are not part of this module.
 */
module Llvm35 {
  import opened Text

  /** The first replacement's result always starts with this, so the final slice is in bounds. */
  const MarkedPrefix := "metadata !"

  /** Length of the `"metadata "` token the third step strips. */
  const KeywordLength := |"metadata "|

  /** The first step turns the leading '!' into `metadata !`. */
  lemma MarkLeading(line: string)
    requires StartsWith(line, "!")
    ensures ReplaceAll(line, "!", "metadata !") == MarkedPrefix + ReplaceAll(line[1..], "!", "metadata !")
  {
  }

  /** No "distinct metadata" starts inside the `metadata !` prefix. */
  lemma NoDistinctInPrefix(x: string, k: nat)
    requires k < |MarkedPrefix|
    ensures !StartsWith((MarkedPrefix + x)[k..], "distinct metadata")
  {
    var m := MarkedPrefix + x;
    if k == 4 {
      assert m[k + 1] == 'a' && "distinct metadata"[1] == 'i';
    } else {
      assert m[k] != 'd';
    }
  }

  /** After the first two steps, a line that began with '!' begins with `metadata !`. */
  lemma MarkedLine(line: string)
    requires StartsWith(line, "!")
    ensures ReplaceAll(ReplaceAll(line, "!", "metadata !"), "distinct metadata", "metadata")
            == MarkedPrefix + ReplaceAll(ReplaceAll(line[1..], "!", "metadata !"), "distinct metadata", "metadata")
  {
    MarkLeading(line);
    var x := ReplaceAll(line[1..], "!", "metadata !");
    var m := MarkedPrefix + x;
    forall k | 0 <= k < |MarkedPrefix| ensures !StartsWith(m[k..], "distinct metadata") {
      NoDistinctInPrefix(x, k);
    }
    ReplaceAllSkip(MarkedPrefix, x, "distinct metadata", "metadata");
  }

  /**
   * One line of the module. A line starting with '!' has "metadata " put in
   * front of every '!', then every "distinct metadata" shortened to
   * "metadata", then its first nine characters ("metadata ") dropped; any
   * other line is left as it is.
   */
  function RewriteLine(line: string): (r: string)
    ensures !StartsWith(line, "!") ==> r == line
    ensures StartsWith(line, "!") ==> StartsWith(r, "!")
    ensures '\n' !in line ==> '\n' !in r
  {
    if StartsWith(line, "!") then
      var marked := ReplaceAll(line, "!", "metadata !");
      var merged := ReplaceAll(marked, "distinct metadata", "metadata");
      MarkedLine(line);
      assert '\n' !in line ==> '\n' !in merged by {
        if '\n' !in line {
          ReplaceAllNoNewline(line, "!", "metadata !");
          ReplaceAllNoNewline(marked, "distinct metadata", "metadata");
        }
      }
      assert merged[KeywordLength..][..1] == "!" by {
        assert merged[KeywordLength] == MarkedPrefix[KeywordLength];
      }
      merged[KeywordLength..]
    else line
  }

  /** A metadata line keeps its leading '!'; everything after it gets both replacements. */
  lemma RewriteMetadataLine(line: string)
    requires StartsWith(line, "!")
    ensures RewriteLine(line) == "!" + ReplaceAll(ReplaceAll(line[1..], "!", "metadata !"), "distinct metadata", "metadata")
  {
    MarkedLine(line);
  }

  /** Every line is rewritten by itself. */
  function RewriteLines(lines: seq<string>): seq<string> {
    seq(|lines|, i requires 0 <= i < |lines| => RewriteLine(lines[i]))
  }

  /** One more line rewritten: the written text grows by that line and its '\n'. */
  lemma RewriteLinesStep(lines: seq<string>, i: nat, line: string)
    requires i < |lines| && line == RewriteLine(lines[i])
    ensures JoinLines(RewriteLines(lines[..i + 1])) == JoinLines(RewriteLines(lines[..i])) + line + "\n"
  {
    assert RewriteLines(lines[..i + 1]) == RewriteLines(lines[..i]) + [line];
    JoinLinesAppend(RewriteLines(lines[..i]), line);
  }

  /** The whole text step: each line of the input rewritten and written back followed by '\n'. */
  function RewriteText(input: string): string {
    JoinLines(RewriteLines(SplitLines(input)))
  }

  /**
   * The loop of `llvm35_transform`: for each line of the input, the three
   * replacements on a line starting with '!', then the line and a '\n'
   * appended to the output buffer.
   */
  method Transform(input: string) returns (output: string)
    ensures output == RewriteText(input)
  {
    var lines := SplitLines(input);
    output := [];
    var i := 0;
    while i < |lines|
      invariant 0 <= i <= |lines|
      invariant output == JoinLines(RewriteLines(lines[..i]))
    {
      var line := lines[i];
      if StartsWith(line, "!") {
        MarkedLine(line);
        line := ReplaceAll(line, "!", "metadata !");
        line := ReplaceAll(line, "distinct metadata", "metadata");
        line := line[KeywordLength..];
      }
      RewriteLinesStep(lines, i, line);
      output := output + line + "\n";
      i := i + 1;
    }
    assert lines[..i] == lines;
  }

  /** Lines that do not start with '!' pass through, so a module without metadata lines is written back as it was read. */
  lemma {:induction false} RewriteTextPlain(input: string)
    requires forall i | 0 <= i < |SplitLines(input)| :: !StartsWith(SplitLines(input)[i], "!")
    ensures RewriteText(input) == Terminated(input)
  {
    var lines := SplitLines(input);
    assert RewriteLines(lines) == lines;
    JoinSplit(input);
  }

  /**
   * Every line of the output is exactly one rewritten input line, in order,
   * and ends with a single '\n' (the output is empty or ends with '\n').
   */
  lemma {:induction false} RewriteTextLines(input: string)
    ensures SplitLines(RewriteText(input)) == RewriteLines(SplitLines(input))
    ensures RewriteText(input) == [] || RewriteText(input)[|RewriteText(input)| - 1] == '\n'
  {
    var lines := RewriteLines(SplitLines(input));
    SplitLinesNoNewline(input);
    SplitJoin(lines);
    JoinSplit(JoinLines(lines));
  }

  /** A reference mark followed by text without references gains "metadata ". */
  lemma MarkReference(body: string)
    requires '!' !in body
    ensures ReplaceAll("!" + body, "!", "metadata !") == "metadata !" + body
  {
    ReplaceAllAtStart(body, "!", "metadata !");
    ReplaceAllFreePrefix(body, [], "!", "metadata !");
    assert body + [] == body;
  }

  // The two lemmas below take their string constants as parameters pinned by
  // `requires`: with the literals written inline the solver unfolds ReplaceAll
  // over them and the proof becomes far more expensive.

  /** First step on a `distinct` node definition: only the reference mark gains "metadata ". */
  lemma DistinctDefinitionMarked(id: string, body: string, sep: string, bang: string, mark: string)
    requires sep == " = distinct " && bang == "!" && mark == "metadata !"
    requires '!' !in id && '!' !in body
    ensures ReplaceAll(id + (sep + (bang + body)), bang, mark) == id + (sep + (mark + body))
  {
    MarkReference(body);
    ReplaceAllFreePrefix(sep, bang + body, bang, mark);
    ReplaceAllFreePrefix(id, sep + (bang + body), bang, mark);
  }

  /** Second step on a `distinct` node definition: "distinct metadata" collapses to "metadata". */
  lemma DistinctDefinitionMerged(id: string, body: string, eq: string, d: string, to: string, sp: string)
    requires eq == " = " && d == "distinct metadata" && to == "metadata" && sp == " !"
    requires 'd' !in id && NoOccurrence(body, d)
    ensures ReplaceAll(id + (eq + (d + (sp + body))), d, to) == id + (eq + (to + (sp + body)))
  {
    ReplaceAllFreePrefix(id, eq + (d + (sp + body)), d, to);
    ReplaceAllFreePrefix(eq, d + (sp + body), d, to);
    ReplaceAllAtStart(sp + body, d, to);
    ReplaceAllFreePrefix(sp, body, d, to);
    ReplaceAllNoOccurrence(body, d, to);
  }

  /** The pieces a `distinct` node definition is cut into by the two steps. */
  lemma DistinctShapes(id: string, body: string)
    ensures id + " = distinct !" + body == id + (" = distinct " + ("!" + body))
    ensures id + " = distinct metadata !" + body == id + (" = distinct " + ("metadata !" + body))
    ensures id + " = distinct metadata !" + body == id + (" = " + ("distinct metadata" + (" !" + body)))
    ensures id + " = metadata !" + body == id + (" = " + ("metadata" + (" !" + body)))
  {
    assert " = distinct " + "!" == " = distinct !";
    assert " = distinct " + "metadata !" == " = distinct metadata !";
    assert " = " + ("distinct metadata" + " !") == " = distinct metadata !";
    assert " = " + ("metadata" + " !") == " = metadata !";
  }

  /** The first step on the rest of a `distinct` node definition. */
  lemma DistinctMarkedStep(rest: string, id: string, body: string)
    requires rest == id + " = distinct !" + body && '!' !in id && '!' !in body
    ensures ReplaceAll(rest, "!", "metadata !") == id + " = distinct metadata !" + body
  {
    DistinctShapes(id, body);
    DistinctDefinitionMarked(id, body, " = distinct ", "!", "metadata !");
  }

  /** The second step on the rest of a `distinct` node definition. */
  lemma DistinctMergedStep(marked: string, id: string, body: string)
    requires marked == id + " = distinct metadata !" + body && 'd' !in id && NoOccurrence(body, "distinct metadata")
    ensures ReplaceAll(marked, "distinct metadata", "metadata") == id + " = metadata !" + body
  {
    DistinctShapes(id, body);
    DistinctDefinitionMerged(id, body, " = ", "distinct metadata", "metadata", " !");
  }

  /**
   * A `distinct` node definition without references in it loses the word
   * `distinct` and keeps its leading '!': `!7 = distinct !{}` becomes
   * `!7 = metadata !{}`.
   */
  lemma DistinctDefinition(line: string, id: string, body: string)
    requires StartsWith(line, "!") && line[1..] == id + " = distinct !" + body
    requires '!' !in id && 'd' !in id
    requires '!' !in body && NoOccurrence(body, "distinct metadata")
    ensures RewriteLine(line) == "!" + id + " = metadata !" + body
  {
    RewriteMetadataLine(line);
    DistinctMarkedStep(line[1..], id, body);
    DistinctMergedStep(ReplaceAll(line[1..], "!", "metadata !"), id, body);
  }
}
