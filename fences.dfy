/** Pulling a fenced block out of a free-text LLM reply (kevin_agents.py).
    Every JSON-consuming stage runs the same split-based extractor, and the
    process-mapping and future-state stages run a variant for ```mermaid
    blocks. The reply is an arbitrary string. */
module Fences {
  import opened Wrappers
  import opened PyStrings

  const Fence: string := "```"
  const JsonFence: string := "```json"
  const MermaidFence: string := "```mermaid"

  /** `content.split(opener)[1].split("```")[0]`: the text after the first
      `opener`, cut at the split points Python finds. */
  function FencedBody(content: string, opener: string): string
    requires opener != [] && Contains(content, opener)
  {
    ContainsIffSplitsInTwo(content, opener);
    Split(Split(content, opener)[1], Fence)[0]
  }

  /** An opener beginning with ``` (```json, ```mermaid or ``` itself). */
  predicate IsOpener(opener: string) {
    |opener| >= 3 && opener[..3] == Fence
  }

  /** The three-way choice every extractor makes: a block opened by `opener`
      if there is one, else the first plain ``` block, else the whole text. */
  function PreferredBlock(content: string, opener: string): (r: string)
    requires IsOpener(opener)
    ensures Contains(content, Fence) ==> !Contains(r, Fence)
    ensures !Contains(content, Fence) ==> r == content
  {
    if Contains(content, opener) then
      OpenerGivesFence(content, opener);
      SplitPartsAvoidSep(Split(content, opener)[1], Fence);
      FencedBody(content, opener)
    else if Contains(content, Fence) then
      SplitPartsAvoidSep(Split(content, Fence)[1], Fence);
      FencedBody(content, Fence)
    else content
  }

  /** Wherever an opener occurs, a ``` occurs. */
  lemma OpenerOccursAsFence(content: string, opener: string, i: int)
    requires IsOpener(opener) && OccursAt(content, opener, i)
    ensures OccursAt(content, Fence, i)
  {
    assert content[i..i + 3] == content[i..i + |opener|][..3];
  }

  lemma OpenerGivesFence(content: string, opener: string)
    requires IsOpener(opener) && Contains(content, opener)
    ensures Contains(content, Fence)
  {
    var i :| 0 <= i <= |content| - |opener| && OccursAt(content, opener, i);
    OpenerOccursAsFence(content, opener, i);
  }

  /** The JSON text a stage hands to `json.loads` (kevin_agents.py:285-290). */
  function ExtractJson(content: string): string {
    PreferredBlock(content, JsonFence)
  }

  /** The current-state process map: the preferred ```mermaid block, stripped
      (kevin_agents.py:350-356). */
  function CurrentStateMap(content: string): string {
    Strip(PreferredBlock(content, MermaidFence))
  }

  /** The future-state stage's extractor: only a ```mermaid block counts
      (kevin_agents.py:538-540). */
  function FutureBlock(content: string): Option<string> {
    if Contains(content, MermaidFence) then Some(Strip(FencedBody(content, MermaidFence))) else None
  }

  /** The future-state process map: the ```mermaid block, or else the
      current-state map kept as it is (kevin_agents.py:538-541). */
  function FutureStateMap(content: string, currentMap: string): string {
    FutureBlock(content).GetOr(currentMap)
  }

  // ---------------------------------------------------------------------
  // Where the extracted text sits in the reply
  // ---------------------------------------------------------------------

  /** The second piece of `content.split(sep)`: it starts right after the
      first `sep` and stops at the end or where the next `sep` begins. */
  lemma SecondPiece(content: string, sep: string) returns (start: nat, stop: nat)
    requires sep != [] && Contains(content, sep)
    ensures Find(content, sep, 0).Some? && start == Find(content, sep, 0).value + |sep|
    ensures start <= stop <= |content| && |Split(content, sep)| >= 2
    ensures Split(content, sep)[1] == content[start..stop]
    ensures stop == |content| || OccursAt(content, sep, stop)
    ensures stop == match Find(content, sep, start) case Some(j) => j case None => |content|
  {
    ContainsIffFound(content, sep);
    SplitFirstPieces(content, sep);
    start := Find(content, sep, 0).value + |sep|;
    stop := match Find(content, sep, start) case Some(j) => j case None => |content|;
  }

  /** The first piece of `s.split(sep)` is `s` up to the first `sep`, or all of it. */
  lemma FirstPiece(s: string, sep: string) returns (k: nat)
    requires sep != []
    ensures k <= |s| && Split(s, sep)[0] == s[..k]
    ensures k == |s| || OccursAt(s, sep, k)
  {
    SplitFirstPieces(s, sep);
    k := match Find(s, sep, 0) case Some(j) => j case None => |s|;
  }

  /** The body of the first `opener` block starts right after that opener and
      stops either at the end of the reply or where a ``` begins. */
  lemma FencedBodyLocated(content: string, opener: string) returns (start: nat, end: nat)
    requires IsOpener(opener) && Contains(content, opener)
    ensures Find(content, opener, 0).Some?
    ensures start == Find(content, opener, 0).value + |opener|
    ensures start <= end <= |content| && FencedBody(content, opener) == content[start..end]
    ensures end == |content| || OccursAt(content, Fence, end)
  {
    var stop;
    start, stop := SecondPiece(content, opener);
    var part := content[start..stop];
    var k := FirstPiece(part, Fence);
    end := start + k;
    assert part[..k] == content[start..end];
    if k < |part| {
      OccursInSlice(content, Fence, start, stop, k);
    } else if stop < |content| {
      OpenerOccursAsFence(content, opener, stop);
    }
  }

  /** A reply without a ```json fence but with ``` fences yields exactly the
      text between the first ``` and the next one (or the end). */
  lemma PlainFenceBetweenFirstTwo(content: string)
    requires Contains(content, Fence)
    ensures Find(content, Fence, 0).Some?
    ensures var i := Find(content, Fence, 0).value;
            var j := Find(content, Fence, i + 3);
            FencedBody(content, Fence) == content[i + 3..if j.Some? then j.value else |content|]
  {
    var start, stop := SecondPiece(content, Fence);
    var part := content[start..stop];
    SplitPartsAvoidSep(content, Fence);
    ContainsIffFound(part, Fence);
    SplitFirstPieces(part, Fence);
  }

  /** The JSON extractor's three cases. The text is always a slice of the
      reply; with a ```json fence it starts right after the first one and
      ends at the end or where a ``` begins; with only plain fences it is the
      text between the first two; with no fence it is the whole reply. */
  lemma ExtractJsonCases(content: string) returns (a: nat, b: nat)
    ensures a <= b <= |content| && ExtractJson(content) == content[a..b]
    ensures Contains(content, JsonFence) ==>
              && Find(content, JsonFence, 0).Some?
              && a == Find(content, JsonFence, 0).value + |JsonFence|
              && (b == |content| || OccursAt(content, Fence, b))
    ensures !Contains(content, JsonFence) && Contains(content, Fence) ==>
              && Find(content, Fence, 0).Some?
              && a == Find(content, Fence, 0).value + |Fence|
              && b == (match Find(content, Fence, a) case Some(j) => j case None => |content|)
    ensures !Contains(content, Fence) ==> a == 0 && b == |content|
  {
    if Contains(content, JsonFence) {
      a, b := FencedBodyLocated(content, JsonFence);
    } else if Contains(content, Fence) {
      PlainFenceBetweenFirstTwo(content);
      a := Find(content, Fence, 0).value + |Fence|;
      b := match Find(content, Fence, a) case Some(j) => j case None => |content|;
    } else {
      a, b := 0, |content|;
    }
  }

  /** The extracted JSON text never holds a ``` fence. */
  lemma ExtractJsonHasNoFence(content: string)
    ensures !Contains(ExtractJson(content), Fence)
  {
  }

  /** The split-based extractor does not stop at the first ``` after the
      ```json opener when that ``` overlaps the next ```json opener: here the
      first ``` after the opener begins at index 8, yet two backticks beyond
      it are kept. */
  lemma ExtractJsonKeepsBackticksBeforeNextOpener()
    ensures var c := "```jsonA`````json";
            Find(c, Fence, 7) == Some(8) && ExtractJson(c) == "A``"
  {
    var c := "```jsonA`````json";
    assert OccursAt(c, Fence, 8);
    assert !OccursAt(c, Fence, 7) by { assert c[7..10][0] == c[7] == 'A'; }
    FoundAt(c, Fence, 7, 8);
    assert OccursAt(c, JsonFence, 0);
    FoundAt(c, JsonFence, 0, 0);
    assert !OccursAt(c, JsonFence, 7) by { assert c[7..14][0] == c[7] == 'A'; }
    assert !OccursAt(c, JsonFence, 8) by { assert c[8..15][3] == c[11] == '`'; }
    assert !OccursAt(c, JsonFence, 9) by { assert c[9..16][3] == c[12] == '`'; }
    assert OccursAt(c, JsonFence, 10);
    FoundAt(c, JsonFence, 7, 10);
    var start, stop := SecondPiece(c, JsonFence);
    var part := c[start..stop];
    assert part == "A``";
    var k := FirstPiece(part, Fence);
    assert !OccursAt(part, Fence, 0) by { assert part[0] == 'A'; }
    assert part[..k] == part;
  }

  /** The leftmost occurrence from `from` on is at `i` when `pat` occurs at
      `i` and nowhere in between. */
  lemma FoundAt(s: string, pat: string, from: nat, i: nat)
    requires pat != [] && from <= i && OccursAt(s, pat, i)
    requires forall j :: from <= j < i ==> !OccursAt(s, pat, j)
    ensures Find(s, pat, from) == Some(i)
  {
  }

  // ---------------------------------------------------------------------
  // The two mermaid extractors
  // ---------------------------------------------------------------------

  /** The current-state map is a stripped slice of the reply with no ``` in it
      (when the reply had fences at all). */
  lemma CurrentStateMapShape(content: string) returns (a: nat, b: nat)
    ensures a <= b <= |content| && CurrentStateMap(content) == content[a..b]
    ensures Contains(content, Fence) ==> !Contains(CurrentStateMap(content), Fence)
  {
    var block := PreferredBlock(content, MermaidFence);
    var x, y := PreferredBlockIsSlice(content, MermaidFence);
    var p, q := StripIsSlice(block);
    a, b := x + p, x + q;
    assert CurrentStateMap(content) == Strip(block);
    SliceOfSlice(content, x, y, p, q);
    if Contains(content, Fence) {
      SliceAvoidsPattern(block, Fence, p, q);
    }
  }

  lemma SliceOfSlice(s: string, x: nat, y: nat, p: nat, q: nat)
    requires x <= y <= |s| && p <= q <= y - x
    ensures s[x..y][p..q] == s[x + p..x + q]
  {
    forall i | 0 <= i < q - p
      ensures s[x..y][p..q][i] == s[x + p..x + q][i]
    {
    }
  }

  /** A slice of a text without `pat` has no `pat` either. */
  lemma SliceAvoidsPattern(s: string, pat: string, p: nat, q: nat)
    requires p <= q <= |s| && !Contains(s, pat)
    ensures !Contains(s[p..q], pat)
  {
    if Contains(s[p..q], pat) {
      var k :| 0 <= k <= |s[p..q]| - |pat| && OccursAt(s[p..q], pat, k);
      OccursInSlice(s, pat, p, q, k);
    }
  }

  /** Whichever branch it takes, the preferred block is a slice of the reply. */
  lemma PreferredBlockIsSlice(content: string, opener: string) returns (x: nat, y: nat)
    requires IsOpener(opener)
    ensures x <= y <= |content| && PreferredBlock(content, opener) == content[x..y]
  {
    if Contains(content, opener) {
      x, y := FencedBodyLocated(content, opener);
    } else if Contains(content, Fence) {
      PlainFenceBetweenFirstTwo(content);
      x := Find(content, Fence, 0).value + |Fence|;
      y := match Find(content, Fence, x) case Some(j) => j case None => |content|;
    } else {
      x, y := 0, |content|;
    }
  }

  /** The future-state map agrees with the current-state extractor when the
      reply has a ```mermaid block, and otherwise is the previous map
      unchanged, whatever other fences the reply holds. */
  lemma FutureStateMapFallback(content: string, currentMap: string)
    ensures Contains(content, MermaidFence) ==> FutureStateMap(content, currentMap) == CurrentStateMap(content)
    ensures !Contains(content, MermaidFence) ==> FutureStateMap(content, currentMap) == currentMap
  {
  }
}
