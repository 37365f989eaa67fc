/** The line scan of `AIBackBookGenerator._parse_markdown`: a text is split
    into lines and turned, in one forward pass, into tagged elements
    (`h1` to `h4`, `bold`, `list`, `code` and `p`).

    The scan is given twice: `StepAt`/`ParseFrom` say what one iteration of
    the outer loop does and what the whole scan yields, and the method
    `ParseMarkdown` is the loop itself, proved to agree with them. */
module Markdown {
  import opened Text

  /** One parsed element: the `(tag, data)` pairs of the source, one
      constructor per tag. */
  datatype Element =
    | H1(text: string)
    | H2(text: string)
    | H3(text: string)
    | H4(text: string)
    | Bold(text: string)
    | List(items: seq<string>)
    | Code(text: string)
    | P(text: string)

  /** What the scan yields. The source loop never returns on some inputs:
      `Diverges(line)` stands for a run that reaches the paragraph branch at
      index `line`, collects nothing there and so repeats that iteration for
      ever. */
  datatype ParseResult = Parsed(elements: seq<Element>) | Diverges(line: nat)

  /** The effect of one iteration of the outer loop: move on to `next`
      without output, move on to `next` after appending `element`, or make
      no progress. */
  datatype Step = Skip(next: nat) | Emit(element: Element, next: nat) | Stall

  /** A line the inner list loop consumes. */
  predicate IsListLine(line: string) {
    StartsWith(Trim(line), "- ")
  }

  /** A line that opens or closes a code block. */
  predicate IsFenceLine(line: string) {
    StartsWith(Trim(line), "```")
  }

  /** A line the inner code loop copies. */
  predicate IsCodeLine(line: string) {
    !IsFenceLine(line)
  }

  /** A line the inner paragraph loop consumes: not blank and not starting
      with any block marker. */
  predicate IsParagraphLine(line: string) {
    var t := Trim(line);
    t != "" && !(StartsWith(t, "#") || StartsWith(t, "- ") || StartsWith(t, "**") || StartsWith(t, "```"))
  }

  /** A trimmed line on which the outer loop makes no progress: it starts
      with `#` but with none of the four heading markers, or it starts with
      `**` without ending with `**`. */
  predicate IsStuckLine(t: string) {
    || (StartsWith(t, "#") && !StartsWith(t, "# ") && !StartsWith(t, "## ")
        && !StartsWith(t, "### ") && !StartsWith(t, "#### "))
    || (StartsWith(t, "**") && !EndsWith(t, "**"))
  }

  /** The three inner loops of the scan, by the lines they consume. */
  datatype RunKind = ListRun | CodeRun | ParagraphRun

  /** Whether a line belongs to a run of the given kind. */
  predicate InRun(kind: RunKind, line: string) {
    match kind
    case ListRun => IsListLine(line)
    case CodeRun => IsCodeLine(line)
    case ParagraphRun => IsParagraphLine(line)
  }

  /** The end of the maximal run of lines from i on that belong to the
      kind: the first index at or after i whose line does not, or the
      number of lines. */
  function RunEnd(lines: seq<string>, i: nat, kind: RunKind): (e: nat)
    requires i <= |lines|
    ensures i <= e <= |lines|
    decreases |lines| - i
  {
    if i < |lines| && InRun(kind, lines[i]) then RunEnd(lines, i + 1, kind) else i
  }

  /** Every line of the run belongs to it. */
  lemma {:induction false} RunEndCovers(lines: seq<string>, i: nat, kind: RunKind, k: nat)
    requires i <= |lines| && i <= k < RunEnd(lines, i, kind)
    ensures InRun(kind, lines[k])
    decreases k - i
  {
    if k > i {
      RunEndCovers(lines, i + 1, kind, k);
    }
  }

  /** The line that ends the run does not belong to it. */
  lemma {:induction false} RunEndStops(lines: seq<string>, i: nat, kind: RunKind)
    requires i <= |lines|
    ensures RunEnd(lines, i, kind) < |lines| ==> !InRun(kind, lines[RunEnd(lines, i, kind)])
    decreases |lines| - i
  {
    if i < |lines| && InRun(kind, lines[i]) {
      RunEndStops(lines, i + 1, kind);
    }
  }

  /** The run from i is empty exactly when line i fails p (or there is none). */
  lemma RunEndEmpty(lines: seq<string>, i: nat, kind: RunKind)
    requires i <= |lines|
    ensures RunEnd(lines, i, kind) == i <==> (i == |lines| || !InRun(kind, lines[i]))
  {
  }

  /** Python's `s[n:]`, which is empty when s is shorter than n. */
  function DropPrefix(s: string, n: nat): string {
    if n <= |s| then s[n..] else ""
  }

  /** The text of a list line: the trimmed line without its `- `, trimmed again. */
  function ItemText(line: string): string {
    Trim(DropPrefix(Trim(line), 2))
  }

  /** The items of the list lines lines[lo..hi], in source order. */
  function ListItems(lines: seq<string>, lo: nat, hi: nat): (items: seq<string>)
    requires lo <= hi <= |lines|
    ensures |items| == hi - lo
  {
    seq(hi - lo, j requires 0 <= j < hi - lo => ItemText(lines[lo + j]))
  }

  /** The trimmed lines of lines[lo..hi], in source order. */
  function TrimmedLines(lines: seq<string>, lo: nat, hi: nat): (r: seq<string>)
    requires lo <= hi <= |lines|
    ensures |r| == hi - lo
  {
    seq(hi - lo, j requires 0 <= j < hi - lo => Trim(lines[lo + j]))
  }

  /** Python's `t[2:-2]`, which is empty when t is shorter than four characters. */
  function BoldInner(t: string): string {
    if |t| >= 4 then t[2..|t| - 2] else ""
  }

  /** One iteration of the outer loop at index i. Every iteration that does
      not stall moves strictly forward (one past the end when a code block
      is not closed). */
  function StepAt(lines: seq<string>, i: nat): (s: Step)
    requires i < |lines|
    ensures !s.Stall? ==> i < s.next <= |lines| + 1
  {
    var t := Trim(lines[i]);
    if t == "" then Skip(i + 1)
    else if StartsWith(t, "## Title Page") then Skip(i + 1)
    else if StartsWith(t, "# ") && !StartsWith(t, "##") then Emit(H1(Trim(t[2..])), i + 1)
    else if StartsWith(t, "## ") then Emit(H2(Trim(t[3..])), i + 1)
    else if StartsWith(t, "### ") then Emit(H3(Trim(t[4..])), i + 1)
    else if StartsWith(t, "#### ") then Emit(H4(Trim(t[5..])), i + 1)
    else if StartsWith(t, "**") && EndsWith(t, "**") then Emit(Bold(Trim(BoldInner(t))), i + 1)
    else if StartsWith(t, "- ") then
      var e := RunEnd(lines, i, ListRun);
      Emit(List(ListItems(lines, i, e)), e)
    else if StartsWith(t, "```") then
      var e := RunEnd(lines, i + 1, CodeRun);
      Emit(Code(Join(lines[i + 1..e], "\n")), e + 1)
    else
      var e := RunEnd(lines, i, ParagraphRun);
      if e == i then Stall else Emit(P(Join(TrimmedLines(lines, i, e), " ")), e)
  }

  /** es followed by the outcome r (a divergence stays a divergence). */
  function Extend(es: seq<Element>, r: ParseResult): ParseResult {
    match r
    case Parsed(rest) => Parsed(es + rest)
    case Diverges(k) => r
  }

  /** The outcome of running the outer loop from index i to the end. */
  function ParseFrom(lines: seq<string>, i: nat): ParseResult
    requires i <= |lines| + 1
    decreases |lines| + 1 - i, 1
  {
    if i >= |lines| then Parsed([]) else Resume(lines, i, StepAt(lines, i))
  }

  /** The outcome once the iteration at index i has had the effect s. */
  function Resume(lines: seq<string>, i: nat, s: Step): ParseResult
    requires i < |lines|
    requires !s.Stall? ==> i < s.next <= |lines| + 1
    decreases |lines| + 1 - i, 0
  {
    match s
    case Stall => Diverges(i)
    case Skip(j) => ParseFrom(lines, j)
    case Emit(e, j) => Extend([e], ParseFrom(lines, j))
  }

  /** `_parse_markdown(content)` */
  function Parse(content: string): ParseResult {
    ParseFrom(SplitLines(content), 0)
  }

  /** Every heading marker, `## Title Page` included, starts with `#`. */
  lemma HashMarkersStartWithHash(t: string)
    ensures StartsWith(t, "## Title Page") ==> StartsWith(t, "#")
    ensures StartsWith(t, "# ") ==> StartsWith(t, "#")
    ensures StartsWith(t, "## ") ==> StartsWith(t, "#")
    ensures StartsWith(t, "### ") ==> StartsWith(t, "#")
    ensures StartsWith(t, "#### ") ==> StartsWith(t, "#")
  {
    if StartsWith(t, "## Title Page") { PrefixOfPrefix(t, "#", "## Title Page"); }
    if StartsWith(t, "# ") { PrefixOfPrefix(t, "#", "# "); }
    if StartsWith(t, "## ") { PrefixOfPrefix(t, "#", "## "); }
    if StartsWith(t, "### ") { PrefixOfPrefix(t, "#", "### "); }
    if StartsWith(t, "#### ") { PrefixOfPrefix(t, "#", "#### "); }
  }

  /** The outer loop makes no progress at index i exactly when the trimmed
      line there is a stuck line. */
  lemma {:induction false} StallsExactlyOnStuckLines(lines: seq<string>, i: nat)
    requires i < |lines|
    ensures StepAt(lines, i).Stall? <==> IsStuckLine(Trim(lines[i]))
  {
    var t := Trim(lines[i]);
    if t == "" {
    } else if StartsWith(t, "## Title Page") {
      PrefixOfPrefix(t, "## ", "## Title Page");
    } else if StartsWith(t, "# ") && !StartsWith(t, "##") {
      PrefixesClash(t, "# ", "**", 0);
    } else if StartsWith(t, "## ") {
      PrefixesClash(t, "## ", "**", 0);
    } else if StartsWith(t, "### ") {
      PrefixesClash(t, "### ", "**", 0);
    } else if StartsWith(t, "#### ") {
      PrefixesClash(t, "#### ", "**", 0);
    } else if StartsWith(t, "**") && EndsWith(t, "**") {
      PrefixesClash(t, "#", "**", 0);
    } else if StartsWith(t, "- ") {
      PrefixesClash(t, "#", "- ", 0);
      PrefixesClash(t, "**", "- ", 0);
    } else if StartsWith(t, "```") {
      PrefixesClash(t, "#", "```", 0);
      PrefixesClash(t, "**", "```", 0);
    } else {
      PrefixesClash(t, "# ", "##", 1);
      RunEndEmpty(lines, i, ParagraphRun);
    }
  }

  /** A scan from i can only diverge at a stuck line at or after i. */
  lemma {:induction false} DivergesOnlyAtStuckLine(lines: seq<string>, i: nat)
    requires i <= |lines| + 1
    ensures ParseFrom(lines, i).Diverges? ==>
              var k := ParseFrom(lines, i).line;
              i <= k < |lines| && IsStuckLine(Trim(lines[k]))
    decreases |lines| + 1 - i
  {
    if i < |lines| {
      StallsExactlyOnStuckLines(lines, i);
      var s := StepAt(lines, i);
      if !s.Stall? {
        DivergesOnlyAtStuckLine(lines, s.next);
      }
    }
  }

  /** The "no stuck line" condition is enough for the scan to terminate: an
      input none of whose trimmed lines is a stuck line always parses. */
  lemma NoStuckLineParses(lines: seq<string>)
    requires forall k :: 0 <= k < |lines| ==> !IsStuckLine(Trim(lines[k]))
    ensures ParseFrom(lines, 0).Parsed?
  {
    DivergesOnlyAtStuckLine(lines, 0);
  }

  /** Conversely, when the first non-blank line from i on is a stuck line,
      the scan diverges there. */
  lemma {:induction false} StuckLineDiverges(lines: seq<string>, i: nat, j: nat)
    requires i <= j < |lines|
    requires forall k :: i <= k < j ==> AllSpace(lines[k])
    requires IsStuckLine(Trim(lines[j]))
    ensures ParseFrom(lines, i) == Diverges(j)
    decreases j - i
  {
    if i < j {
      TrimSpec(lines[i]);
      SkippedLines(lines, i);
      StuckLineDiverges(lines, i + 1, j);
    } else {
      StuckLineStalls(lines, j);
    }
  }

  /** The scan diverges right at a stuck line. */
  lemma StuckLineStalls(lines: seq<string>, j: nat)
    requires j < |lines| && IsStuckLine(Trim(lines[j]))
    ensures ParseFrom(lines, j) == Diverges(j)
  {
    StallsExactlyOnStuckLines(lines, j);
  }

  /** Blank and whitespace-only lines produce nothing. */
  lemma {:induction false} BlankLinesParseToNothing(lines: seq<string>, i: nat)
    requires i <= |lines| + 1
    requires forall k :: i <= k < |lines| ==> AllSpace(lines[k])
    ensures ParseFrom(lines, i) == Parsed([])
    decreases |lines| + 1 - i
  {
    if i < |lines| {
      TrimSpec(lines[i]);
      BlankLinesParseToNothing(lines, i + 1);
    }
  }

  /** A text made only of whitespace parses to no elements. */
  lemma BlankContentParsesToNothing(content: string)
    requires AllSpace(content)
    ensures Parse(content) == Parsed([])
  {
    var lines := SplitLines(content);
    forall k | 0 <= k < |lines| ensures AllSpace(lines[k]) {
      forall j | 0 <= j < |lines[k]| ensures IsSpace(lines[k][j]) {
        assert lines[k][j] in lines[k];
      }
    }
    BlankLinesParseToNothing(lines, 0);
  }

  /** What the payloads of parsed elements look like: heading texts are
      non-empty and trimmed, bold texts trimmed, a list has at least one
      item and every item is non-empty and trimmed, a paragraph is
      non-empty and trimmed. */
  predicate WellFormed(e: Element) {
    match e
    case H1(t) => t != "" && IsTrimmed(t)
    case H2(t) => t != "" && IsTrimmed(t)
    case H3(t) => t != "" && IsTrimmed(t)
    case H4(t) => t != "" && IsTrimmed(t)
    case Bold(t) => IsTrimmed(t)
    case List(items) => |items| > 0 && forall k :: 0 <= k < |items| ==> items[k] != "" && IsTrimmed(items[k])
    case Code(_) => true
    case P(t) => t != "" && IsTrimmed(t)
  }

  /** After a marker that ends in a space, a trimmed line still has
      something that is not whitespace. */
  lemma AfterMarker(t: string, marker: string)
    requires IsTrimmed(t) && StartsWith(t, marker)
    requires |marker| > 0 && IsSpace(marker[|marker| - 1])
    ensures Trim(t[|marker|..]) != "" && IsTrimmed(Trim(t[|marker|..]))
  {
    assert t[|marker| - 1] == t[..|marker|][|marker| - 1] == marker[|marker| - 1];
    var rest := t[|marker|..];
    assert rest[|rest| - 1] == t[|t| - 1];
    TrimSpec(rest);
  }

  /** The text of a list line is non-empty and trimmed. */
  lemma ItemTextWellFormed(line: string)
    requires IsListLine(line)
    ensures ItemText(line) != "" && IsTrimmed(ItemText(line))
  {
    TrimSpec(line);
    AfterMarker(Trim(line), "- ");
  }

  /** The items of a run of list lines are non-empty and trimmed. */
  lemma ListItemsWellFormed(lines: seq<string>, lo: nat, hi: nat)
    requires lo <= |lines| && lo <= hi <= RunEnd(lines, lo, ListRun)
    ensures forall j :: 0 <= j < hi - lo ==> ListItems(lines, lo, hi)[j] != "" && IsTrimmed(ListItems(lines, lo, hi)[j])
  {
    forall j | 0 <= j < hi - lo ensures ListItems(lines, lo, hi)[j] != "" && IsTrimmed(ListItems(lines, lo, hi)[j]) {
      RunEndCovers(lines, lo, ListRun, lo + j);
      ItemTextWellFormed(lines[lo + j]);
    }
  }

  /** The paragraph text of a non-empty run of paragraph lines is non-empty
      and trimmed. */
  lemma ParagraphWellFormed(lines: seq<string>, lo: nat, hi: nat)
    requires lo < |lines| && lo < hi <= RunEnd(lines, lo, ParagraphRun)
    ensures var t := Join(TrimmedLines(lines, lo, hi), " "); t != "" && IsTrimmed(t)
  {
    var parts := TrimmedLines(lines, lo, hi);
    forall j | 0 <= j < |parts| ensures parts[j] != [] && IsTrimmed(parts[j]) {
      var k := lo + j;
      RunEndCovers(lines, lo, ParagraphRun, k);
      TrimSpec(lines[k]);
    }
    JoinTrimmed(parts);
  }

  /** Every element one iteration emits is well formed. */
  lemma StepWellFormed(lines: seq<string>, i: nat)
    requires i < |lines| && StepAt(lines, i).Emit?
    ensures WellFormed(StepAt(lines, i).element)
  {
    var t := Trim(lines[i]);
    TrimSpec(lines[i]);
    if t == "" || StartsWith(t, "## Title Page") {
    } else if StartsWith(t, "# ") && !StartsWith(t, "##") {
      AfterMarker(t, "# ");
    } else if StartsWith(t, "## ") {
      AfterMarker(t, "## ");
    } else if StartsWith(t, "### ") {
      AfterMarker(t, "### ");
    } else if StartsWith(t, "#### ") {
      AfterMarker(t, "#### ");
    } else if StartsWith(t, "**") && EndsWith(t, "**") {
      TrimSpec(BoldInner(t));
    } else if StartsWith(t, "- ") {
      ListItemsWellFormed(lines, i, RunEnd(lines, i, ListRun));
    } else if StartsWith(t, "```") {
    } else {
      var e := RunEnd(lines, i, ParagraphRun);
      if e > i {
        ParagraphWellFormed(lines, i, e);
      }
    }
  }

  /** Every element of a completed scan is well formed. */
  lemma {:induction false} ParsedElementsWellFormed(lines: seq<string>, i: nat)
    requires i <= |lines| + 1
    ensures ParseFrom(lines, i).Parsed? ==>
              forall k :: 0 <= k < |ParseFrom(lines, i).elements| ==> WellFormed(ParseFrom(lines, i).elements[k])
    decreases |lines| + 1 - i
  {
    if i < |lines| {
      var s := StepAt(lines, i);
      assert ParseFrom(lines, i) == Resume(lines, i, s);
      if !s.Stall? {
        ParsedElementsWellFormed(lines, s.next);
      }
      if s.Emit? {
        StepWellFormed(lines, i);
        var rest := ParseFrom(lines, s.next);
        if rest.Parsed? {
          assert ParseFrom(lines, i).elements == [s.element] + rest.elements;
        }
      }
    }
  }

  /** Lines that produce nothing: blank lines and `## Title Page` lines. */
  lemma {:induction false} SkippedLines(lines: seq<string>, i: nat)
    requires i < |lines|
    requires Trim(lines[i]) == "" || StartsWith(Trim(lines[i]), "## Title Page")
    ensures StepAt(lines, i) == Skip(i + 1)
  {
  }

  /** The number of `#` characters a string starts with. */
  function HashRun(t: string): (n: nat)
    ensures n <= |t|
    ensures forall k :: 0 <= k < n ==> t[k] == '#'
    ensures n < |t| ==> t[n] != '#'
    decreases |t|
  {
    if |t| > 0 && t[0] == '#' then 1 + HashRun(t[1..]) else 0
  }

  /** The heading element of a level from 1 to 4. */
  function Heading(level: nat, text: string): Element
    requires 1 <= level <= 4
  {
    if level == 1 then H1(text)
    else if level == 2 then H2(text)
    else if level == 3 then H3(text)
    else H4(text)
  }

  /** A marker of n `#` and a space starts t exactly when t starts with
      exactly n `#` followed by a space. */
  lemma MarkerShape(t: string, marker: string, n: nat)
    requires |marker| == n + 1 && marker[n] == ' '
    requires forall k :: 0 <= k < n ==> marker[k] == '#'
    ensures StartsWith(t, marker) <==> HashRun(t) == n && n < |t| && t[n] == ' '
  {
    var r := HashRun(t);
    if StartsWith(t, marker) {
      assert forall k :: 0 <= k <= n ==> t[k] == t[..n + 1][k] == marker[k];
      assert r >= n;
    }
    if r == n && n < |t| && t[n] == ' ' {
      assert t[..n + 1] == marker;
    }
  }

  /** Headings by marker length: a line whose trim starts with n `#` and
      a space, 1 <= n <= 4, gives a heading of level n whose text is the
      rest of the line, trimmed; any other line starting with `#` (no
      space after the marker, or five or more `#`) stalls the loop. The
      `## Title Page` line is the one exception (see SkippedLines). */
  lemma HeadingByMarkerLength(lines: seq<string>, i: nat)
    requires i < |lines|
    requires StartsWith(Trim(lines[i]), "#") && !StartsWith(Trim(lines[i]), "## Title Page")
    ensures var t := Trim(lines[i]); var n := HashRun(t);
            if 1 <= n <= 4 && n < |t| && t[n] == ' '
            then StepAt(lines, i) == Emit(Heading(n, Trim(t[n + 1..])), i + 1)
            else StepAt(lines, i).Stall?
  {
    var t := Trim(lines[i]);
    assert t[0] == t[..1][0] == '#';
    MarkerShape(t, "# ", 1);
    MarkerShape(t, "## ", 2);
    MarkerShape(t, "### ", 3);
    MarkerShape(t, "#### ", 4);
    PrefixesClash(t, "# ", "##", 1);
    PrefixesClash(t, "#", "**", 0);
    StallsExactlyOnStuckLines(lines, i);
  }

  /** A line whose trim starts and ends with `**` gives a bold element with
      the text between the markers, trimmed; when the markers overlap (`**`
      or `***`) the text is empty. */
  lemma BoldLine(lines: seq<string>, i: nat)
    requires i < |lines|
    requires StartsWith(Trim(lines[i]), "**") && EndsWith(Trim(lines[i]), "**")
    ensures var t := Trim(lines[i]);
            StepAt(lines, i) == Emit(Bold(Trim(BoldInner(t))), i + 1)
    ensures |Trim(lines[i])| < 4 ==> StepAt(lines, i) == Emit(Bold(""), i + 1)
  {
    var t := Trim(lines[i]);
    PrefixesClash(t, "## Title Page", "**", 0);
    PrefixesClash(t, "# ", "**", 0);
    PrefixesClash(t, "## ", "**", 0);
    PrefixesClash(t, "### ", "**", 0);
    PrefixesClash(t, "#### ", "**", 0);
    assert Trim("") == "";
  }

  /** A list is one element for a maximal run of list lines: it starts at
      i, takes every following line whose trim starts with `- `, stops at
      the first that does not, and holds their items in source order. */
  lemma ListBlockIsMaximalRun(lines: seq<string>, i: nat)
    requires i < |lines| && IsListLine(lines[i])
    ensures var s := StepAt(lines, i);
            && s.Emit? && s.element.List?
            && i < s.next <= |lines|
            && (forall k :: i <= k < s.next ==> IsListLine(lines[k]))
            && (s.next < |lines| ==> !IsListLine(lines[s.next]))
            && s.element.items == ListItems(lines, i, s.next)
  {
    var t := Trim(lines[i]);
    PrefixesClash(t, "#", "- ", 0);
    PrefixesClash(t, "**", "- ", 0);
    var e := RunEnd(lines, i, ListRun);
    assert StepAt(lines, i) == Emit(List(ListItems(lines, i, e)), e);
    forall k | i <= k < e ensures IsListLine(lines[k]) {
      RunEndCovers(lines, i, ListRun, k);
    }
    RunEndStops(lines, i, ListRun);
  }

  /** A code block runs from the line after its opening fence up to the
      first line whose trim starts with three backquotes, or to the end of
      the input when there is none; its text is those lines, unstripped,
      joined with newlines, and the scan resumes after the closing fence. */
  lemma CodeBlockRunsToFence(lines: seq<string>, i: nat)
    requires i < |lines| && IsFenceLine(lines[i])
    ensures var s := StepAt(lines, i);
            && s.Emit? && s.element.Code?
            && i < s.next - 1 <= |lines|
            && (forall k :: i < k < s.next - 1 ==> !IsFenceLine(lines[k]))
            && (s.next - 1 < |lines| ==> IsFenceLine(lines[s.next - 1]))
            && s.element.text == Join(lines[i + 1..s.next - 1], "\n")
  {
    var t := Trim(lines[i]);
    PrefixesClash(t, "#", "```", 0);
    PrefixesClash(t, "**", "```", 0);
    PrefixesClash(t, "- ", "```", 0);
    var e := RunEnd(lines, i + 1, CodeRun);
    assert StepAt(lines, i) == Emit(Code(Join(lines[i + 1..e], "\n")), e + 1);
    forall k | i < k < e ensures !IsFenceLine(lines[k]) {
      RunEndCovers(lines, i + 1, CodeRun, k);
    }
    RunEndStops(lines, i + 1, CodeRun);
  }

  /** A paragraph is one element for a maximal run of paragraph lines: the
      lines are trimmed and joined with single spaces. */
  lemma ParagraphIsMaximalRun(lines: seq<string>, i: nat)
    requires i < |lines| && IsParagraphLine(lines[i])
    ensures var s := StepAt(lines, i);
            && s.Emit? && s.element.P?
            && i < s.next <= |lines|
            && (forall k :: i <= k < s.next ==> IsParagraphLine(lines[k]))
            && (s.next < |lines| ==> !IsParagraphLine(lines[s.next]))
            && s.element.text == Join(TrimmedLines(lines, i, s.next), " ")
  {
    HashMarkersStartWithHash(Trim(lines[i]));
    var e := RunEnd(lines, i, ParagraphRun);
    assert e > i;
    assert StepAt(lines, i) == Emit(P(Join(TrimmedLines(lines, i, e), " ")), e);
    forall k | i <= k < e ensures IsParagraphLine(lines[k]) {
      RunEndCovers(lines, i, ParagraphRun, k);
    }
    RunEndStops(lines, i, ParagraphRun);
  }

  /** One emitting iteration of the outer loop moves one element from the
      outcome still to come onto the elements collected so far. */
  lemma ExtendByStep(lines: seq<string>, es: seq<Element>, i: nat)
    requires i < |lines| && StepAt(lines, i).Emit?
    ensures Extend(es, ParseFrom(lines, i))
         == Extend(es + [StepAt(lines, i).element], ParseFrom(lines, StepAt(lines, i).next))
  {
    var s := StepAt(lines, i);
    match ParseFrom(lines, s.next)
    case Parsed(rest) => assert es + ([s.element] + rest) == es + [s.element] + rest;
    case Diverges(_) =>
  }

  /** The inner list loop: consumes the list lines from start on and
      collects their items. */
  method ScanList(lines: seq<string>, start: nat) returns (listItems: seq<string>, i: nat)
    requires start <= |lines|
    ensures i == RunEnd(lines, start, ListRun)
    ensures listItems == ListItems(lines, start, i)
  {
    listItems := [];
    i := start;
    while i < |lines| && IsListLine(lines[i])
      invariant start <= i <= |lines|
      invariant RunEnd(lines, start, ListRun) == RunEnd(lines, i, ListRun)
      invariant listItems == ListItems(lines, start, i)
      decreases |lines| - i
    {
      var text := Trim(Trim(lines[i])[2..]);
      assert text == ItemText(lines[i]);
      listItems := listItems + [text];
      i := i + 1;
    }
  }

  /** The inner code loop: copies the lines from start on, unstripped, up to
      the next fence line or the end of the input. */
  method ScanCode(lines: seq<string>, start: nat) returns (codeLines: seq<string>, i: nat)
    requires start <= |lines|
    ensures i == RunEnd(lines, start, CodeRun)
    ensures codeLines == lines[start..i]
  {
    codeLines := [];
    i := start;
    while i < |lines| && IsCodeLine(lines[i])
      invariant start <= i <= |lines|
      invariant RunEnd(lines, start, CodeRun) == RunEnd(lines, i, CodeRun)
      invariant codeLines == lines[start..i]
      decreases |lines| - i
    {
      assert lines[start..i + 1] == lines[start..i] + [lines[i]];
      codeLines := codeLines + [lines[i]];
      i := i + 1;
    }
  }

  /** The inner paragraph loop: collects the trimmed paragraph lines from
      start on. */
  method ScanParagraph(lines: seq<string>, start: nat) returns (paraLines: seq<string>, i: nat)
    requires start <= |lines|
    ensures i == RunEnd(lines, start, ParagraphRun)
    ensures paraLines == TrimmedLines(lines, start, i)
  {
    paraLines := [];
    i := start;
    while i < |lines| && IsParagraphLine(lines[i])
      invariant start <= i <= |lines|
      invariant RunEnd(lines, start, ParagraphRun) == RunEnd(lines, i, ParagraphRun)
      invariant paraLines == TrimmedLines(lines, start, i)
      decreases |lines| - i
    {
      assert TrimmedLines(lines, start, i + 1) == TrimmedLines(lines, start, i) + [Trim(lines[i])];
      paraLines := paraLines + [Trim(lines[i])];
      i := i + 1;
    }
  }

  /** The body of the outer loop at index i: classify the trimmed line and
      consume the block it opens. */
  method ScanBlock(lines: seq<string>, i: nat) returns (s: Step)
    requires i < |lines|
    ensures s == StepAt(lines, i)
  {
    var line := Trim(lines[i]);
    if line == "" {
      return Skip(i + 1);
    }
    if StartsWith(line, "## Title Page") {
      return Skip(i + 1);
    }
    if StartsWith(line, "# ") && !StartsWith(line, "##") {
      s := Emit(H1(Trim(line[2..])), i + 1);
    } else if StartsWith(line, "## ") {
      s := Emit(H2(Trim(line[3..])), i + 1);
    } else if StartsWith(line, "### ") {
      s := Emit(H3(Trim(line[4..])), i + 1);
    } else if StartsWith(line, "#### ") {
      s := Emit(H4(Trim(line[5..])), i + 1);
    } else if StartsWith(line, "**") && EndsWith(line, "**") {
      s := Emit(Bold(Trim(BoldInner(line))), i + 1);
    } else if StartsWith(line, "- ") {
      var listItems, next := ScanList(lines, i);
      s := Emit(List(listItems), next);
    } else if StartsWith(line, "```") {
      var codeLines, next := ScanCode(lines, i + 1);
      s := Emit(Code(Join(codeLines, "\n")), next + 1);
    } else {
      var paraLines, next := ScanParagraph(lines, i);
      if paraLines == [] {
        // next == i: the source's loop repeats this iteration for ever
        s := Stall;
      } else {
        s := Emit(P(Join(paraLines, " ")), next);
      }
    }
  }

  /** `_parse_markdown`: the outer while loop over the split lines, appending
      one element per block. Where the source would spin for ever, the loop
      reports the line instead. */
  method ParseMarkdown(content: string) returns (r: ParseResult)
    ensures r == Parse(content)
  {
    var elements: seq<Element> := [];
    var lines := SplitLines(content);
    var i := 0;
    while i < |lines|
      invariant i <= |lines| + 1
      invariant ParseFrom(lines, 0) == Extend(elements, ParseFrom(lines, i))
      decreases |lines| + 1 - i
    {
      var s := ScanBlock(lines, i);
      match s
      case Stall =>
        return Diverges(i);
      case Skip(next) =>
        i := next;
      case Emit(element, next) =>
        ExtendByStep(lines, elements, i);
        elements := elements + [element];
        i := next;
    }
    r := Parsed(elements);
  }
}
