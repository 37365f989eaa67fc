/** The worked examples of the markdown converter's behaviour, each a
    whole input and the elements it parses to. */
module Samples {
  import opened Text
  import opened Markdown

  /** When the first block spans the whole input it is the whole parse. */
  lemma OneBlock(lines: seq<string>, e: Element, next: nat)
    requires 0 < |lines| <= next <= |lines| + 1
    ensures Resume(lines, 0, Emit(e, next)) == Parsed([e])
  {
    assert ParseFrom(lines, next) == Parsed([]);
  }

  lemma ParseLines(content: string, lines: seq<string>)
    requires |lines| >= 1 && (forall k :: 0 <= k < |lines| ==> '\n' !in lines[k])
    requires content == Join(lines, "\n")
    ensures Parse(content) == ParseFrom(lines, 0)
  {
    SplitLinesJoin(lines);
  }

  lemma HeadingStep(lines: seq<string>)
    requires lines == ["# Title"]
    ensures StepAt(lines, 0) == Emit(H1("Title"), 1)
  {
    TrimSpec("# Title");
    HeadingTitleShape();
    HeadingByMarkerLength(lines, 0);
  }

  lemma HeadingTitleShape()
    ensures HashRun("# Title") == 1 && Trim("# Title"[2..]) == "Title"
  {
    assert "# Title"[1..] == " Title";
    TrimSpec("Title");
    assert "# Title"[2..] == "Title";
  }

  /** `# Title` alone is one level-one heading with text `Title`. */
  lemma SingleHeading()
    ensures Parse("# Title") == Parsed([H1("Title")])
  {
    var lines := ["# Title"];
    ParseLines("# Title", lines);
    HeadingStep(lines);
    OneBlock(lines, H1("Title"), 1);
  }

  lemma SectionStep(lines: seq<string>)
    requires lines == ["## Title"]
    ensures StepAt(lines, 0) == Emit(H2("Title"), 1)
  {
    TrimSpec("## Title");
    SectionTitleShape();
    HeadingByMarkerLength(lines, 0);
  }

  lemma SectionTitleShape()
    ensures HashRun("## Title") == 2 && Trim("## Title"[3..]) == "Title"
  {
    assert "## Title"[1..] == "# Title";
    assert "# Title"[1..] == " Title";
    TrimSpec("Title");
    assert "## Title"[3..] == "Title";
  }

  /** `## Title` alone is one level-two heading with text `Title`. */
  lemma SingleSection()
    ensures Parse("## Title") == Parsed([H2("Title")])
  {
    var lines := ["## Title"];
    ParseLines("## Title", lines);
    SectionStep(lines);
    OneBlock(lines, H2("Title"), 1);
  }

  lemma ListLinesStep(lines: seq<string>)
    requires 0 < |lines|
    requires forall k :: 0 <= k < |lines| ==> IsListLine(lines[k])
    ensures StepAt(lines, 0) == Emit(List(ListItems(lines, 0, |lines|)), |lines|)
  {
    ListBlockIsMaximalRun(lines, 0);
    assert lines[0..|lines|] == lines;
  }

  /** `- c` for a letter c is a list line whose item is c. */
  lemma OneLetterItem(line: string, c: char)
    requires line == ['-', ' ', c] && 'a' <= c <= 'z'
    ensures IsListLine(line) && ItemText(line) == [c]
  {
    TrimSpec(line);
    TrimSpec([c]);
    assert line[2..] == [c];
  }

  lemma ThreeListLines(lines: seq<string>)
    requires lines == ["- a", "- b", "- c"]
    ensures forall k :: 0 <= k < 3 ==> IsListLine(lines[k])
    ensures ListItems(lines, 0, |lines|) == ["a", "b", "c"]
  {
    OneLetterItem(lines[0], 'a');
    OneLetterItem(lines[1], 'b');
    OneLetterItem(lines[2], 'c');
  }

  /** Three list lines are one list of three items, in order. */
  lemma ThreeItemList()
    ensures Parse("- a\n- b\n- c") == Parsed([List(["a", "b", "c"])])
  {
    var lines := ["- a", "- b", "- c"];
    ParseLines("- a\n- b\n- c", lines);
    ThreeListLines(lines);
    ListLinesStep(lines);
    OneBlock(lines, List(["a", "b", "c"]), 3);
  }

  lemma ParagraphLinesStep(lines: seq<string>)
    requires 0 < |lines|
    requires forall k :: 0 <= k < |lines| ==> IsParagraphLine(lines[k])
    ensures StepAt(lines, 0) == Emit(P(Join(TrimmedLines(lines, 0, |lines|), " ")), |lines|)
  {
    ParagraphIsMaximalRun(lines, 0);
    assert lines[0..|lines|] == lines;
  }

  /** Two plain lines in a row merge into one paragraph. */
  lemma TwoLineParagraph()
    ensures Parse("Hello\nWorld") == Parsed([P("Hello World")])
  {
    var lines := ["Hello", "World"];
    ParseLines("Hello\nWorld", lines);
    HelloWorldLines(lines);
    ParagraphLinesStep(lines);
    OneBlock(lines, P("Hello World"), 2);
  }

  lemma HelloWorldLines(lines: seq<string>)
    requires lines == ["Hello", "World"]
    ensures forall k :: 0 <= k < |lines| ==> IsParagraphLine(lines[k])
    ensures Join(TrimmedLines(lines, 0, |lines|), " ") == "Hello World"
  {
    PlainLine("Hello");
    PlainLine("World");
    HelloWorldTrimmed(lines);
  }

  lemma HelloWorldTrimmed(lines: seq<string>)
    requires lines == ["Hello", "World"]
    ensures Join(TrimmedLines(lines, 0, |lines|), " ") == "Hello World"
  {
    TrimSpec("Hello"); TrimSpec("World");
    assert TrimmedLines(lines, 0, |lines|) == ["Hello", "World"];
  }

  /** A non-empty trimmed line whose first character opens no block is a
      paragraph line. */
  lemma PlainLine(s: string)
    requires s != [] && IsTrimmed(s) && s[0] != '#' && s[0] != '-' && s[0] != '*' && s[0] != '`'
    ensures IsParagraphLine(s)
  {
    TrimSpec(s);
  }

  lemma FencedStep(lines: seq<string>)
    requires 2 <= |lines| && IsFenceLine(lines[0]) && IsFenceLine(lines[|lines| - 1])
    requires forall k :: 0 < k < |lines| - 1 ==> !IsFenceLine(lines[k])
    ensures StepAt(lines, 0) == Emit(Code(Join(lines[1..|lines| - 1], "\n")), |lines|)
  {
    CodeBlockRunsToFence(lines, 0);
  }

  /** Joining two pieces puts the separator between them. */
  lemma JoinTwo(a: string, b: string, sep: string)
    ensures Join([a, b], sep) == a + sep + b
  {
    assert [a, b][1..] == [b];
  }

  /** Joining a piece in front of at least one more. */
  lemma JoinFront(a: string, rest: seq<string>, sep: string)
    requires |rest| >= 1
    ensures Join([a] + rest, sep) == a + sep + Join(rest, sep)
  {
    assert ([a] + rest)[1..] == rest;
  }

  /** A fenced block is one code element holding the lines between the
      fences, joined with newlines. */
  lemma FencedCode()
    ensures Parse("```\nx\ny\n```") == Parsed([Code("x\ny")])
  {
    var lines := ["```", "x", "y", "```"];
    FencedLines(lines);
    FencedJoin(lines);
    ParseLines("```\nx\ny\n```", lines);
    FencedStep(lines);
    OneBlock(lines, Code("x\ny"), 4);
  }

  lemma FencedLines(lines: seq<string>)
    requires lines == ["```", "x", "y", "```"]
    ensures IsFenceLine(lines[0]) && IsFenceLine(lines[3])
    ensures forall k :: 0 < k < |lines| - 1 ==> !IsFenceLine(lines[k])
    ensures forall k :: 0 <= k < |lines| ==> '\n' !in lines[k]
  {
    TrimSpec("```"); TrimSpec("x"); TrimSpec("y");
  }

  lemma FencedJoin(lines: seq<string>)
    requires lines == ["```", "x", "y", "```"]
    ensures Join(lines[1..|lines| - 1], "\n") == "x\ny"
    ensures Join(lines, "\n") == "```\nx\ny\n```"
  {
    assert lines[1..|lines| - 1] == ["x", "y"];
    JoinTwo("x", "y", "\n");
    FencedWhole();
  }

  lemma FencedWhole()
    ensures Join(["```", "x", "y", "```"], "\n") == "```\nx\ny\n```"
  {
    JoinTwo("y", "```", "\n");
    assert ["x", "y", "```"] == ["x"] + ["y", "```"];
    JoinFront("x", ["y", "```"], "\n");
    assert ["```", "x", "y", "```"] == ["```"] + ["x", "y", "```"];
    JoinFront("```", ["x", "y", "```"], "\n");
  }

  /** A stuck line inside a fenced block is copied like any other code
      line: only stuck lines the outer loop classifies make it spin. */
  lemma StuckLineInCodeIsHarmless()
    ensures IsStuckLine(Trim("#x"))
    ensures Parse("```\n#x\n```") == Parsed([Code("#x")])
  {
    var lines := ["```", "#x", "```"];
    StuckInsideFences(lines);
    FencedHashJoin(lines);
    ParseLines("```\n#x\n```", lines);
    FencedStep(lines);
    OneBlock(lines, Code("#x"), 3);
  }

  lemma StuckInsideFences(lines: seq<string>)
    requires lines == ["```", "#x", "```"]
    ensures IsFenceLine(lines[0]) && IsFenceLine(lines[2]) && !IsFenceLine(lines[1])
    ensures IsStuckLine(Trim(lines[1]))
    ensures forall k :: 0 <= k < |lines| ==> '\n' !in lines[k]
  {
    TrimSpec("```"); TrimSpec("#x");
    assert "#x"[1..] == "x";
  }

  lemma FencedHashJoin(lines: seq<string>)
    requires lines == ["```", "#x", "```"]
    ensures Join(lines[1..|lines| - 1], "\n") == "#x"
    ensures Join(lines, "\n") == "```\n#x\n```"
  {
    assert lines[1..|lines| - 1] == ["#x"];
    JoinTwo("#x", "```", "\n");
    assert lines == ["```"] + ["#x", "```"];
    JoinFront("```", ["#x", "```"], "\n");
  }

  /** A `## Title Page` line is consumed without leaving an element, so not
      every non-blank line ends up in some element. */
  lemma TitlePageLineLeavesNothing()
    ensures Parse("## Title Page") == Parsed([])
  {
    var lines := ["## Title Page"];
    ParseLines("## Title Page", lines);
    TitlePageStep(lines);
  }

  lemma TitlePageStep(lines: seq<string>)
    requires lines == ["## Title Page"]
    ensures StepAt(lines, 0) == Skip(1)
  {
    TrimSpec("## Title Page");
    SkippedLines(lines, 0);
  }

  /** `#x` is a stuck line: the scan diverges on it. */
  lemma HashWithoutSpaceDiverges()
    ensures Parse("#x") == Diverges(0)
  {
    var lines := ["#x"];
    ParseLines("#x", lines);
    TrimSpec("#x");
    StuckLineDiverges(lines, 0, 0);
  }

  /** An opening `**` without a closing one is a stuck line too. */
  lemma UnclosedBoldDiverges()
    ensures Parse("**x") == Diverges(0)
  {
    var lines := ["**x"];
    ParseLines("**x", lines);
    UnclosedBoldStuck(lines);
    StuckLineDiverges(lines, 0, 0);
  }

  lemma UnclosedBoldStuck(lines: seq<string>)
    requires lines == ["**x"]
    ensures IsStuckLine(Trim(lines[0]))
  {
    TrimSpec("**x");
    assert "**x"[1..] == "*x";
  }
}
