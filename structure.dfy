/** `DocumentProcessor.parse_structure` (kevin_agents.py:200-234): a single
    pass over the lines of an SOP document that records all-caps lines as
    section headings and lines starting like "3." or "2)" as numbered steps. */
module StructureParser {
  import opened Wrappers
  import opened PyStrings
  import opened JsonValues

  /** One entry of `structure["steps"]`. */
  datatype Step = Step(stepNumber: nat, section: string, text: string, kind: string)

  /** The dict `parse_structure` returns, plus the `detailed_analysis` key the
      SOP stage may add to it afterwards. */
  datatype Structure = Structure(
    sections: seq<string>,
    currentSection: string,
    steps: seq<Step>,
    decisionPoints: seq<Json>,
    actors: seq<string>,
    systems: seq<string>,
    detailedAnalysis: Option<Json>)

  const Introduction: string := "Introduction"
  const Manual: string := "manual"

  /** A stripped line taken for a section heading. */
  predicate IsSectionLine(line: string) {
    IsUpper(line) && |line| > 5
  }

  /** A stripped line taken for a numbered step: a leading digit and a `.` or
      `)` among its first four characters. */
  predicate IsStepLine(line: string) {
    line != [] && IsDigit(line[0]) && (Contains(Take(line, 4), ".") || Contains(Take(line, 4), ")"))
  }

  // ---------------------------------------------------------------------
  // What the first n lines contribute (`lines` are the stripped lines)
  // ---------------------------------------------------------------------

  /** `f` applied to every element, in order. */
  function MapSeq<A, B>(f: A -> B, xs: seq<A>): (ys: seq<B>)
    ensures |ys| == |xs|
  {
    if xs == [] then [] else [f(xs[0])] + MapSeq(f, xs[1..])
  }

  lemma {:induction false} MapSeqAt<A, B>(f: A -> B, xs: seq<A>, i: nat)
    requires i < |xs|
    ensures MapSeq(f, xs)[i] == f(xs[i])
  {
    if i > 0 {
      MapSeqAt(f, xs[1..], i - 1);
    }
  }

  /** The document's lines, `text.split('\n')`, each stripped. */
  function StrippedLines(text: string): seq<string> {
    MapSeq(Strip, Split(text, "\n"))
  }

  /** The headings among the first `n` lines, in order. */
  function SectionsOf(lines: seq<string>, n: nat): seq<string>
    requires n <= |lines|
  {
    if n == 0 then []
    else
      var line := lines[n - 1];
      SectionsOf(lines, n - 1) + if IsSectionLine(line) then [line] else []
  }

  /** `current_section` once the first `n` lines are read. */
  function CurrentOf(lines: seq<string>, n: nat): string
    requires n <= |lines|
  {
    if n == 0 then Introduction
    else
      var line := lines[n - 1];
      if IsSectionLine(line) then line else CurrentOf(lines, n - 1)
  }

  /** The steps among the first `n` lines, in order; line `n - 1` is
      classified as a heading before it is classified as a step. */
  function StepsOf(lines: seq<string>, n: nat): seq<Step>
    requires n <= |lines|
  {
    if n == 0 then []
    else
      var line := lines[n - 1];
      StepsOf(lines, n - 1) + if IsStepLine(line) then [Step(n, CurrentOf(lines, n), line, Manual)] else []
  }

  /** The structure of a whole document. */
  function StructureOf(text: string): Structure {
    var lines := StrippedLines(text);
    Structure(SectionsOf(lines, |lines|), CurrentOf(lines, |lines|), StepsOf(lines, |lines|), [], [], [], None)
  }

  /** The single pass over the lines. */
  method ParseStructure(text: string) returns (r: Structure)
    ensures r == StructureOf(text)
    ensures r.actors == [] && r.systems == [] && r.decisionPoints == [] && r.detailedAnalysis.None?
  {
    var raw := Split(text, "\n");
    ghost var lines := StrippedLines(text);
    var sections: seq<string> := [];
    var current := Introduction;
    var steps: seq<Step> := [];
    var i := 0;
    while i < |raw|
      invariant i <= |raw| == |lines|
      invariant sections == SectionsOf(lines, i)
      invariant current == CurrentOf(lines, i)
      invariant steps == StepsOf(lines, i)
    {
      var line := Strip(raw[i]);
      MapSeqAt(Strip, raw, i);
      if line != [] {
        if IsSectionLine(line) {
          sections := sections + [line];
          current := line;
        }
        if IsStepLine(line) {
          steps := steps + [Step(i + 1, current, line, Manual)];
        }
      }
      i := i + 1;
    }
    r := Structure(sections, current, steps, [], [], [], None);
  }

  // ---------------------------------------------------------------------
  // Properties of the parse
  // ---------------------------------------------------------------------

  /** The current section is the latest heading read, or "Introduction"
      when there is none yet. */
  lemma {:induction false} CurrentIsLatestSection(lines: seq<string>, n: nat)
    requires n <= |lines|
    ensures SectionsOf(lines, n) == [] ==> CurrentOf(lines, n) == Introduction
    ensures SectionsOf(lines, n) != [] ==> CurrentOf(lines, n) == SectionsOf(lines, n)[|SectionsOf(lines, n)| - 1]
  {
    if n > 0 {
      CurrentIsLatestSection(lines, n - 1);
    }
  }

  /** The headings are exactly the stripped lines that are upper-case and
      longer than five characters. */
  lemma {:induction false} SectionsAreHeadingLines(lines: seq<string>, n: nat)
    requires n <= |lines|
    ensures forall s :: s in SectionsOf(lines, n) ==> IsUpper(s) && |s| > 5
    ensures forall s :: s in SectionsOf(lines, n) <==>
              exists j :: 0 <= j < n && lines[j] == s && IsSectionLine(s)
  {
    if n > 0 {
      SectionsAreHeadingLines(lines, n - 1);
      var line := lines[n - 1];
      forall s | (exists j :: 0 <= j < n && lines[j] == s && IsSectionLine(s))
        ensures s in SectionsOf(lines, n)
      {
        var j :| 0 <= j < n && lines[j] == s && IsSectionLine(s);
        if j < n - 1 {
          assert s in SectionsOf(lines, n - 1);
        }
      }
    }
  }

  /** The indices of the heading lines among the first `n` lines. */
  function HeadingIndices(lines: seq<string>, n: nat): seq<nat>
    requires n <= |lines|
  {
    if n == 0 then []
    else HeadingIndices(lines, n - 1) + if IsSectionLine(lines[n - 1]) then [n - 1] else []
  }

  /** The headings follow the document: the `k`-th heading is the line at
      the `k`-th index, and the indices strictly increase. */
  lemma {:induction false} SectionsInDocumentOrder(lines: seq<string>, n: nat)
    requires n <= |lines|
    ensures var idx, secs := HeadingIndices(lines, n), SectionsOf(lines, n);
            && |idx| == |secs|
            && (forall k :: 0 <= k < |idx| ==> idx[k] < n && secs[k] == lines[idx[k]])
            && (forall a, b :: 0 <= a < b < |idx| ==> idx[a] < idx[b])
  {
    if n > 0 {
      SectionsInDocumentOrder(lines, n - 1);
      var idx', secs' := HeadingIndices(lines, n - 1), SectionsOf(lines, n - 1);
      if IsSectionLine(lines[n - 1]) {
        assert HeadingIndices(lines, n) == idx' + [n - 1];
        assert SectionsOf(lines, n) == secs' + [lines[n - 1]];
      } else {
        assert HeadingIndices(lines, n) == idx';
        assert SectionsOf(lines, n) == secs';
      }
    }
  }

  /** Every heading line has its index among the heading indices, so a
      repeated heading is listed once per occurrence. */
  lemma {:induction false} EveryHeadingListed(lines: seq<string>, n: nat)
    requires n <= |lines|
    ensures forall j :: 0 <= j < n && IsSectionLine(lines[j]) ==> j in HeadingIndices(lines, n)
  {
    if n > 0 {
      EveryHeadingListed(lines, n - 1);
      var idx' := HeadingIndices(lines, n - 1);
      assert HeadingIndices(lines, n) == idx' + if IsSectionLine(lines[n - 1]) then [n - 1] else [];
    }
  }

  /** Every step records its own 1-based line number, the stripped line as
      its text, the section in force at that line and the kind "manual";
      the line is a step line; and step numbers strictly increase. */
  lemma {:induction false} StepsWellFormed(lines: seq<string>, n: nat)
    requires n <= |lines|
    ensures forall k :: 0 <= k < |StepsOf(lines, n)| ==>
              var s := StepsOf(lines, n)[k];
              && 1 <= s.stepNumber <= n
              && s.text == lines[s.stepNumber - 1]
              && IsStepLine(s.text)
              && s.section == CurrentOf(lines, s.stepNumber)
              && s.kind == Manual
    ensures forall a, b :: 0 <= a < b < |StepsOf(lines, n)| ==>
              StepsOf(lines, n)[a].stepNumber < StepsOf(lines, n)[b].stepNumber
  {
    if n > 0 {
      StepsWellFormed(lines, n - 1);
    }
  }

  /** A line is a step exactly when its stripped text is a step line. */
  lemma {:induction false} StepIffStepLine(lines: seq<string>, n: nat, j: nat)
    requires 1 <= j <= n <= |lines|
    ensures (exists k :: 0 <= k < |StepsOf(lines, n)| && StepsOf(lines, n)[k].stepNumber == j)
            <==> IsStepLine(lines[j - 1])
  {
    StepsWellFormed(lines, n);
    if IsStepLine(lines[j - 1]) {
      StepRecorded(lines, n, j);
    }
  }

  lemma {:induction false} StepRecorded(lines: seq<string>, n: nat, j: nat)
    requires 1 <= j <= n <= |lines| && IsStepLine(lines[j - 1])
    ensures exists k :: 0 <= k < |StepsOf(lines, n)| && StepsOf(lines, n)[k].stepNumber == j
  {
    if j < n {
      StepRecorded(lines, n - 1, j);
      var k :| 0 <= k < |StepsOf(lines, n - 1)| && StepsOf(lines, n - 1)[k].stepNumber == j;
      assert StepsOf(lines, n)[k] == StepsOf(lines, n - 1)[k];
    } else {
      assert StepsOf(lines, n)[|StepsOf(lines, n)| - 1].stepNumber == j;
    }
  }

  /** A line that is both a heading and a step is its own section. */
  lemma HeadingStepIsOwnSection(lines: seq<string>, n: nat, k: nat)
    requires n <= |lines| && k < |StepsOf(lines, n)|
    requires IsSectionLine(StepsOf(lines, n)[k].text)
    ensures StepsOf(lines, n)[k].section == StepsOf(lines, n)[k].text
  {
    StepsWellFormed(lines, n);
  }

  /** A document without a single heading files every step under "Introduction". */
  lemma NoHeadingMeansIntroduction(lines: seq<string>, n: nat, k: nat)
    requires n <= |lines| && k < |StepsOf(lines, n)|
    requires SectionsOf(lines, n) == []
    ensures StepsOf(lines, n)[k].section == Introduction
  {
    StepsWellFormed(lines, n);
    var j := StepsOf(lines, n)[k].stepNumber;
    SectionsPrefix(lines, j, n);
    CurrentIsLatestSection(lines, j);
  }

  /** Reading more lines only appends headings. */
  lemma {:induction false} SectionsPrefix(lines: seq<string>, m: nat, n: nat)
    requires m <= n <= |lines|
    ensures SectionsOf(lines, m) <= SectionsOf(lines, n)
  {
    if m < n {
      SectionsPrefix(lines, m, n - 1);
    }
  }
}
