/** `AIBackBookGenerator._add_content`: the parsed elements of the book's
    markdown are turned into the flowables of the PDF story, in order,
    while a flag drops the title-page and table-of-contents sections.

    Flowables are abstract: a page break, a spacer of a width and height in
    points, or a paragraph of marked-up text in one of the book's styles. */
module Story {
  import opened Text
  import opened Markdown

  /** The paragraph styles the content uses (`AIChapterTitle`,
      `AISection`, `AISubsection`, `AIBodyText`, `AIListItem`, `AICode`). */
  datatype Style = ChapterTitle | Section | Subsection | BodyText | ListItem | CodeText

  /** One element of the story. */
  datatype Flowable =
    | PageBreak
    | Spacer(width: nat, height: nat)
    | Paragraph(text: string, style: Style)

  /** What a level-one heading does, by the first of its tests that matches:
      `Title Page` or `TABLE OF CONTENTS` opens a skipped section,
      `DEDICATION` or `PREFACE` is dropped, `PART` starts a part, and any
      other heading is a chapter title. */
  datatype HeadingRole = OpensSkip | FrontMatter | Part | Chapter

  function H1Role(t: string): HeadingRole {
    if Contains(t, "Title Page") || Contains(t, "TABLE OF CONTENTS") then OpensSkip
    else if Contains(t, "DEDICATION") || Contains(t, "PREFACE") then FrontMatter
    else if Contains(t, "PART") then Part
    else Chapter
  }

  /** The code-block escape: every `<` becomes `&lt;`, then every `>`
      becomes `&gt;`; `&` is left as it is. */
  function EscapeCode(s: string): string {
    ReplaceChar(ReplaceChar(s, '<', "&lt;"), '>', "&gt;")
  }

  /** The escape of one character. */
  function EscapeChar(c: char): string {
    if c == '<' then "&lt;" else if c == '>' then "&gt;" else [c]
  }

  /** Escaping character by character, the reference for EscapeCode. */
  function EscapeEach(s: string): string
    decreases |s|
  {
    if s == [] then "" else EscapeChar(s[0]) + EscapeEach(s[1..])
  }

  /** Replacing in a one-character string. */
  lemma ReplaceCharSingle(c: char, d: char, rep: string)
    ensures ReplaceChar([c], d, rep) == if c == d then rep else [c]
  {
    assert [c][1..] == "";
  }

  /** The entity for `<` holds no `>`. */
  lemma LtEntityHasNoGt()
    ensures ReplaceChar("&lt;", '>', "&gt;") == "&lt;"
  {
    assert "&lt;" == ['&'] + "lt;";
    assert "lt;" == ['l'] + "t;";
    assert "t;" == ['t'] + ";";
    assert ";" == [';'] + "";
  }

  /** The two chained replacements escape each character on its own. */
  lemma {:induction false} EscapeCodeIsPerCharacter(s: string)
    ensures EscapeCode(s) == EscapeEach(s)
    decreases |s|
  {
    if s != [] {
      var c := s[0];
      var rest := s[1..];
      var first := if c == '<' then "&lt;" else [c];
      assert ReplaceChar(s, '<', "&lt;") == first + ReplaceChar(rest, '<', "&lt;");
      ReplaceCharConcat(first, ReplaceChar(rest, '<', "&lt;"), '>', "&gt;");
      if c == '<' {
        LtEntityHasNoGt();
      } else {
        ReplaceCharSingle(c, '>', "&gt;");
      }
      EscapeCodeIsPerCharacter(rest);
    }
  }

  /** Escaped code holds no `<` and no `>`, so it cannot open or close a
      tag of the paragraph markup. */
  lemma EscapeCodeHasNoAngleBrackets(s: string)
    ensures '<' !in EscapeCode(s) && '>' !in EscapeCode(s)
  {
    var once := ReplaceChar(s, '<', "&lt;");
    assert '<' !in once;
    assert '>' !in "&gt;" && '<' !in "&gt;";
  }

  /** Escaping changes nothing in text without `<` and `>`. */
  lemma {:induction false} EscapeCodeKeepsPlainText(s: string)
    requires '<' !in s && '>' !in s
    ensures EscapeCode(s) == s
    decreases |s|
  {
    EscapeCodeIsPerCharacter(s);
    EscapeEachKeepsPlainText(s);
  }

  /** The reference escape changes nothing in text without `<` and `>`. */
  lemma {:induction false} EscapeEachKeepsPlainText(s: string)
    requires '<' !in s && '>' !in s
    ensures EscapeEach(s) == s
    decreases |s|
  {
    if s != [] {
      assert s[0] in s;
      assert forall c :: c in s[1..] ==> c in s;
      EscapeEachKeepsPlainText(s[1..]);
    }
  }

  /** Reading the entities `&lt;` and `&gt;` back as the characters. */
  function Unescape(s: string): string
    decreases |s|
  {
    if StartsWith(s, "&lt;") then "<" + Unescape(s[4..])
    else if StartsWith(s, "&gt;") then ">" + Unescape(s[4..])
    else if s == [] then ""
    else [s[0]] + Unescape(s[1..])
  }

  /** Code without `&` survives escaping: reading the entities back gives
      the code. */
  lemma {:induction false} UnescapeEscapeCode(s: string)
    requires '&' !in s
    ensures Unescape(EscapeCode(s)) == s
  {
    EscapeCodeIsPerCharacter(s);
    UnescapeEscapeEach(s);
  }

  /** Reading the entities back undoes the reference escape on text
      without `&`. */
  lemma {:induction false} UnescapeEscapeEach(s: string)
    requires '&' !in s
    ensures Unescape(EscapeEach(s)) == s
    decreases |s|
  {
    if s != [] {
      var c := s[0];
      var rest := EscapeEach(s[1..]);
      assert c in s;
      assert forall x :: x in s[1..] ==> x in s;
      UnescapeEscapeEach(s[1..]);
      var w := EscapeChar(c) + rest;
      if c == '<' || c == '>' {
        assert w[..4] == EscapeChar(c) && w[4..] == rest;
      } else {
        assert w[0] == c && w[1..] == rest;
        if |w| >= 4 {
          assert w[..4][0] == c;
        }
      }
      assert s == [c] + s[1..];
    }
  }

  /** With `&` left alone, code that already holds the entity `&lt;` comes
      out the same as code holding `<`: the markup shows both as `<`. */
  lemma EscapeCodeConflatesEntity()
    ensures EscapeCode("&lt;") == EscapeCode("<")
  {
    EscapeCodeIsPerCharacter("&lt;");
    EscapeCodeIsPerCharacter("<");
    assert "&lt;"[1..] == "lt;" && "lt;"[1..] == "t;" && "t;"[1..] == ";" && ";"[1..] == "";
    assert "<"[1..] == "";
  }

  /** `f"• {item}"` for every item of a list, in order. */
  function Bullets(items: seq<string>): (r: seq<Flowable>)
    ensures |r| == |items|
    ensures forall k :: 0 <= k < |items| ==> r[k] == Paragraph("\U{2022} " + items[k], ListItem)
    decreases |items|
  {
    if items == [] then []
    else Bullets(items[..|items| - 1]) + [Paragraph("\U{2022} " + items[|items| - 1], ListItem)]
  }

  /** The flowables an element stands for when it is shown. */
  function Layout(e: Element): seq<Flowable> {
    match e
    case H1(t) => [PageBreak, Paragraph(t, ChapterTitle)]
    case H2(t) => [Spacer(1, 20), Paragraph(t, Section)]
    case H3(t) => [Spacer(1, 15), Paragraph(t, Subsection)]
    case H4(t) => [Spacer(1, 10), Paragraph("<b>" + t + "</b>", BodyText)]
    case Bold(t) => [Spacer(1, 8), Paragraph("<b>" + t + "</b>", BodyText)]
    case List(items) => Bullets(items)
    case Code(t) => [Spacer(1, 10), Paragraph("<font name='Courier'>" + EscapeCode(t) + "</font>", CodeText)]
    case P(t) => [Spacer(1, 8), Paragraph(t, BodyText)]
  }

  /** Whether an element reaches the story under the skip flag: a part
      heading always does, a chapter heading and every other element only
      outside a skipped section, the other headings never. */
  predicate Shown(e: Element, skip: bool) {
    match e
    case H1(t) => H1Role(t) == Part || (H1Role(t) == Chapter && !skip)
    case _ => !skip
  }

  /** What one element appends to the story. */
  function Emission(e: Element, skip: bool): seq<Flowable> {
    if Shown(e, skip) then Layout(e) else []
  }

  /** The skip flag after one element: set by a title-page or contents
      heading, cleared by a part heading, otherwise kept. */
  function SkipAfter(e: Element, skip: bool): bool {
    if e.H1? then
      match H1Role(e.text)
      case OpensSkip => true
      case Part => false
      case _ => skip
    else skip
  }

  /** The skip flag after a run of elements. */
  function SkipState(es: seq<Element>, skip: bool): bool
    decreases |es|
  {
    if es == [] then skip else SkipState(es[1..], SkipAfter(es[0], skip))
  }

  /** What a run of elements appends to the story, starting from a flag. */
  function Render(es: seq<Element>, skip: bool): seq<Flowable>
    decreases |es|
  {
    if es == [] then [] else Emission(es[0], skip) + Render(es[1..], SkipAfter(es[0], skip))
  }

  /** The flag after two runs is the flag the second leaves, started from
      the flag the first leaves. */
  lemma {:induction false} SkipStateConcat(a: seq<Element>, b: seq<Element>, skip: bool)
    ensures SkipState(a + b, skip) == SkipState(b, SkipState(a, skip))
    decreases |a|
  {
    if a == [] {
      assert a + b == b;
    } else {
      assert (a + b)[0] == a[0] && (a + b)[1..] == a[1..] + b;
      SkipStateConcat(a[1..], b, SkipAfter(a[0], skip));
    }
  }

  lemma AppendAssoc(x: seq<Flowable>, y: seq<Flowable>, z: seq<Flowable>)
    ensures x + (y + z) == x + y + z
  {
  }

  /** Rendering is compositional: the second half starts from the flag the
      first half leaves. */
  lemma {:induction false} RenderConcat(a: seq<Element>, b: seq<Element>, skip: bool)
    ensures Render(a + b, skip) == Render(a, skip) + Render(b, SkipState(a, skip))
    decreases |a|
  {
    if a == [] {
      assert a + b == b;
    } else {
      var e := a[0];
      var next := SkipAfter(e, skip);
      assert (a + b)[0] == e && (a + b)[1..] == a[1..] + b;
      RenderConcat(a[1..], b, next);
      var head := Emission(e, skip);
      assert Render(a + b, skip) == head + (Render(a[1..], next) + Render(b, SkipState(a[1..], next)));
      assert Render(a, skip) == head + Render(a[1..], next);
      assert SkipState(a, skip) == SkipState(a[1..], next);
      AppendAssoc(head, Render(a[1..], next), Render(b, SkipState(a[1..], next)));
    }
  }

  /** Rendering from element k on is element k's emission followed by the
      rest, rendered with the flag element k leaves behind. */
  lemma RenderStep(es: seq<Element>, k: nat, skip: bool)
    requires k < |es|
    ensures Render(es[k..], skip) == Emission(es[k], skip) + Render(es[k + 1..], SkipAfter(es[k], skip))
  {
    assert es[k..][0] == es[k] && es[k..][1..] == es[k + 1..];
  }

  /** An element that is not a level-one heading of a part. */
  predicate NotPart(e: Element) {
    !(e.H1? && H1Role(e.text) == Part)
  }

  /** Inside a skipped section nothing reaches the story and the section
      stays skipped until a part heading: other level-one headings do not
      end it. */
  lemma {:induction false} SkippedSectionRendersNothing(es: seq<Element>)
    requires forall k :: 0 <= k < |es| ==> NotPart(es[k])
    ensures Render(es, true) == []
    ensures SkipState(es, true)
    decreases |es|
  {
    if es != [] {
      assert NotPart(es[0]);
      assert SkipAfter(es[0], true);
      SkippedSectionRendersNothing(es[1..]);
    }
  }

  /** A title-page or contents heading drops itself and everything after it
      up to the next part heading, whatever the flag was. */
  lemma SkipsUntilPart(t: string, section: seq<Element>, rest: seq<Element>, skip: bool)
    requires H1Role(t) == OpensSkip
    requires forall k :: 0 <= k < |section| ==> NotPart(section[k])
    ensures Render([H1(t)] + section + rest, skip) == Render(rest, true)
  {
    RenderConcat([H1(t)] + section, rest, skip);
    RenderConcat([H1(t)], section, skip);
    SkippedSectionRendersNothing(section);
  }

  /** A part heading always starts a new page with its title and ends any
      skipped section. */
  lemma PartHeadingResets(t: string, rest: seq<Element>, skip: bool)
    requires H1Role(t) == Part
    ensures Render([H1(t)] + rest, skip) == [PageBreak, Paragraph(t, ChapterTitle)] + Render(rest, false)
  {
    assert ([H1(t)] + rest)[1..] == rest;
  }

  /** Dedication and preface headings are dropped and leave the flag alone. */
  lemma FrontMatterDropped(t: string, rest: seq<Element>, skip: bool)
    requires H1Role(t) == FrontMatter
    ensures Render([H1(t)] + rest, skip) == Render(rest, skip)
  {
    assert ([H1(t)] + rest)[1..] == rest;
  }

  /** The order of the heading tests: a heading naming both a title page
      and a part opens a skipped section, one naming both a preface and a
      part is dropped. */
  lemma HeadingTestOrder(t: string)
    ensures Contains(t, "Title Page") ==> H1Role(t) == OpensSkip
    ensures Contains(t, "TABLE OF CONTENTS") ==> H1Role(t) == OpensSkip
    ensures (!Contains(t, "Title Page") && !Contains(t, "TABLE OF CONTENTS")
             && (Contains(t, "DEDICATION") || Contains(t, "PREFACE"))) ==> H1Role(t) == FrontMatter
    ensures H1Role(t) == Part <==>
              (Contains(t, "PART") && !Contains(t, "Title Page") && !Contains(t, "TABLE OF CONTENTS")
               && !Contains(t, "DEDICATION") && !Contains(t, "PREFACE"))
  {
  }

  /** With no skipped section ever opened, every element is laid out, each
      level-one heading except dedications and prefaces included. */
  lemma {:induction false} RenderWithoutSkips(es: seq<Element>)
    requires forall k :: 0 <= k < |es| ==> !(es[k].H1? && H1Role(es[k].text) == OpensSkip)
    ensures Render(es, false) == LayoutAll(es)
    decreases |es|
  {
    if es != [] {
      assert !(es[0].H1? && H1Role(es[0].text) == OpensSkip);
      assert !SkipAfter(es[0], false);
      RenderWithoutSkips(es[1..]);
    }
  }

  /** The layout of every element in order, dedications and prefaces left out. */
  function LayoutAll(es: seq<Element>): seq<Flowable>
    decreases |es|
  {
    if es == [] then []
    else (if es[0].H1? && H1Role(es[0].text) == FrontMatter then [] else Layout(es[0])) + LayoutAll(es[1..])
  }

  /** The shape every stretch of story the content adds has: a page break
      is always followed by a chapter title and every chapter title follows
      a page break; a spacer is one point wide, 8, 10, 15 or 20 points high
      and always followed by a paragraph; list paragraphs start with a
      bullet; code paragraphs are wrapped in a Courier font tag. */
  predicate WellShaped(story: seq<Flowable>) {
    && (forall k :: 0 <= k < |story| && story[k].PageBreak? ==>
          k + 1 < |story| && story[k + 1].Paragraph? && story[k + 1].style == ChapterTitle)
    && (forall k :: 0 <= k < |story| && story[k].Paragraph? && story[k].style == ChapterTitle ==>
          0 < k && story[k - 1].PageBreak?)
    && (forall k :: 0 <= k < |story| && story[k].Spacer? ==>
          && story[k].width == 1 && story[k].height in {8, 10, 15, 20}
          && k + 1 < |story| && story[k + 1].Paragraph?)
    && (forall k :: 0 <= k < |story| && story[k].Paragraph? && story[k].style == ListItem ==>
          StartsWith(story[k].text, "\U{2022} "))
    && (forall k :: 0 <= k < |story| && story[k].Paragraph? && story[k].style == CodeText ==>
          StartsWith(story[k].text, "<font name='Courier'>") && EndsWith(story[k].text, "</font>"))
  }

  /** Well-shaped stretches of story stay well shaped when put side by side. */
  lemma ShapedConcat(a: seq<Flowable>, b: seq<Flowable>)
    requires WellShaped(a) && WellShaped(b)
    ensures WellShaped(a + b)
  {
    var s := a + b;
    forall k | 0 <= k < |s| && s[k].Paragraph? && s[k].style == ChapterTitle
      ensures 0 < k && s[k - 1].PageBreak?
    {
      if k < |a| {
        assert a[k] == s[k];
      } else {
        assert b[k - |a|] == s[k];
      }
    }
    forall k | 0 <= k < |s| && s[k].PageBreak?
      ensures k + 1 < |s| && s[k + 1].Paragraph? && s[k + 1].style == ChapterTitle
    {
      if k < |a| {
        assert a[k] == s[k];
      } else {
        assert b[k - |a|] == s[k];
      }
    }
    forall k | 0 <= k < |s| && s[k].Spacer?
      ensures && s[k].width == 1 && s[k].height in {8, 10, 15, 20}
              && k + 1 < |s| && s[k + 1].Paragraph?
    {
      if k < |a| {
        assert a[k] == s[k];
      } else {
        assert b[k - |a|] == s[k];
      }
    }
  }

  /** Each element's layout is well shaped. */
  lemma LayoutShaped(e: Element)
    ensures WellShaped(Layout(e))
  {
    var code := "<font name='Courier'>";
    var close := "</font>";
    if e.Code? {
      var w := code + EscapeCode(e.text) + close;
      assert w[..|code|] == code;
      assert w[|w| - |close|..] == close;
    }
    if e.List? {
      forall k | 0 <= k < |e.items| ensures StartsWith(Bullets(e.items)[k].text, "\U{2022} ") {
        var w := "\U{2022} " + e.items[k];
        assert w[..2] == "\U{2022} ";
      }
    }
  }

  /** Whatever the elements and the flag, what the content adds to the
      story is well shaped. */
  lemma {:induction false} RenderShaped(es: seq<Element>, skip: bool)
    ensures WellShaped(Render(es, skip))
    decreases |es|
  {
    if es != [] {
      LayoutShaped(es[0]);
      RenderShaped(es[1..], SkipAfter(es[0], skip));
      ShapedConcat(Emission(es[0], skip), Render(es[1..], SkipAfter(es[0], skip)));
    }
  }

  /** The book generator's story: the flowables of the PDF, appended to in
      order. */
  class BookGenerator {
    var story: seq<Flowable>

    constructor()
      ensures story == []
    {
      story := [];
    }

    /** The body of the element loop of `_add_content`: appends what one
        element stands for and returns the new skip flag. */
    method AddElement(e: Element, skip: bool) returns (skipAfter: bool)
      modifies this
      ensures story == old(story) + Emission(e, skip)
      ensures skipAfter == SkipAfter(e, skip)
    {
      skipAfter := skip;
      match e
      case H1(t) =>
        if Contains(t, "Title Page") || Contains(t, "TABLE OF CONTENTS") {
          skipAfter := true;
        } else if Contains(t, "DEDICATION") || Contains(t, "PREFACE") {
        } else if Contains(t, "PART") {
          story := story + [PageBreak];
          story := story + [Paragraph(t, ChapterTitle)];
          skipAfter := false;
        } else if !skip {
          story := story + [PageBreak];
          story := story + [Paragraph(t, ChapterTitle)];
        }
      case H2(t) =>
        if !skip {
          story := story + [Spacer(1, 20)];
          story := story + [Paragraph(t, Section)];
        }
      case H3(t) =>
        if !skip {
          story := story + [Spacer(1, 15)];
          story := story + [Paragraph(t, Subsection)];
        }
      case H4(t) =>
        if !skip {
          story := story + [Spacer(1, 10)];
          story := story + [Paragraph("<b>" + t + "</b>", BodyText)];
        }
      case Bold(t) =>
        if !skip {
          story := story + [Spacer(1, 8)];
          story := story + [Paragraph("<b>" + t + "</b>", BodyText)];
        }
      case List(items) =>
        if !skip {
          for j := 0 to |items|
            invariant story == old(story) + Bullets(items[..j])
          {
            assert items[..j + 1][..j] == items[..j];
            story := story + [Paragraph("\U{2022} " + items[j], ListItem)];
          }
          assert items[..|items|] == items;
        }
      case Code(t) =>
        if !skip {
          var codeText := ReplaceChar(ReplaceChar(t, '<', "&lt;"), '>', "&gt;");
          story := story + [Spacer(1, 10)];
          story := story + [Paragraph("<font name='Courier'>" + codeText + "</font>", CodeText)];
        }
      case P(t) =>
        if !skip {
          story := story + [Spacer(1, 8)];
          story := story + [Paragraph(t, BodyText)];
        }
    }

    /** The element loop of `_add_content`: the skip flag starts cleared,
        each element is handed to AddElement in order and the flag it
        returns is carried to the next element. */
    method AddElements(elements: seq<Element>)
      modifies this
      ensures story == old(story) + Render(elements, false)
    {
      var skipUntilNextH1 := false;
      assert elements[0..] == elements;
      for k := 0 to |elements|
        invariant story + Render(elements[k..], skipUntilNextH1) == old(story) + Render(elements, false)
      {
        RenderStep(elements, k, skipUntilNextH1);
        ghost var before := story;
        ghost var head := Emission(elements[k], skipUntilNextH1);
        skipUntilNextH1 := AddElement(elements[k], skipUntilNextH1);
        AppendAssoc(before, head, Render(elements[k + 1..], skipUntilNextH1));
      }
      assert elements[|elements|..] == [];
    }

    /** `_add_content`, given the file's text: parses it and appends the
        story of its elements, starting outside any skipped section. When
        the parse would not terminate nothing is appended and `finished` is
        false. */
    method AddContent(content: string) returns (finished: bool)
      modifies this
      ensures finished <==> Parse(content).Parsed?
      ensures finished ==> story == old(story) + Render(Parse(content).elements, false)
      ensures !finished ==> story == old(story)
    {
      var r := ParseMarkdown(content);
      if r.Diverges? {
        return false;
      }
      AddElements(r.elements);
      return true;
    }
  }
}
