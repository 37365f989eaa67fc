# Markdown to PDF story: a verified model

The book generator `AIBackBookGenerator` in `generate_pdf_reportlab.py`
turns the book's markdown into a ReportLab story in two passes:

1. `_parse_markdown` splits the text on `'\n'`. It then walks the lines
   with a mutable index. Each trimmed line is classified, and the blocks
   become tagged elements: `h1`–`h4`, `bold`, `list`, `code` and `p`.
2. `_add_content` walks those elements with one boolean,
   `skip_until_next_h1`. It appends page breaks, spacers and styled
   paragraphs to `self.story`. The contents of code blocks are escaped.

The project has four modules:

- `Text` (`text.dfy`) models the Python string primitives the code relies
  on:
  - `str.strip` over the `str.isspace` character set;
  - `startswith`, `endswith` and substring `in`;
  - `sep.join` and `split('\n')`;
  - single-character `replace`.
- `Markdown` (`markdown.dfy`) models the scan.
  - `StepAt` is one iteration of the outer loop, and `ParseFrom`/`Resume`
    are the whole loop.
  - `ScanList`, `ScanCode` and `ScanParagraph` are the source's three inner
    `while` loops, `ScanBlock` is the body of the outer loop, and
    `ParseMarkdown` is the outer loop itself. All are imperative methods,
    each proved equal to those functions.
  - The source loop does not terminate on every input. A trimmed line can
    start with `#` without being a heading (`#`, `#x`, `##### x`), or start
    with `**` without ending with `**`. Such a line reaches the paragraph
    branch, which collects nothing, so the index never moves and the loop
    spins for ever.
  - The model makes that outcome explicit: the parse yields
    `Diverges(line)`. One iteration stalls exactly on such a line
    (`StallsExactlyOnStuckLines`). For whole inputs the lemmas give a
    sufficient condition for finishing (no stuck line anywhere,
    `NoStuckLineParses`) and a necessary one for spinning (it happens at a
    stuck line, `DivergesOnlyAtStuckLine`). Stuck lines inside a code block
    are copied as code and are harmless (`Samples.StuckLineInCodeIsHarmless`).
- `Story` (`story.dfy`) models the emission pass. `Render` is a function
  from elements to flowables. `BookGenerator` is a class whose `story`
  field its methods append to, as `_add_content` does.
- `Samples` (`samples.dfy`) holds whole-input examples. Each example fixes
  one input and proves the elements it parses to.

Two facts about the code that a reader might not expect:

- A stray `#` line (such as `#x`) or an unclosed `**` line outside a code
  block makes the loop spin; see `Markdown.StuckLineDiverges` and
  `Samples.HashWithoutSpaceDiverges`.
- A line starting with `## Title Page` is consumed on purpose without
  output (generate_pdf_reportlab.py:205-208); see
  `Samples.TitlePageLineLeavesNothing`.

## Model

| member | source | states |
|---|---|---|
| Text.Trim | generate_pdf_reportlab.py:198 | `str.strip()`: the line between its first and last non-whitespace characters; its properties are stated by `Text.TrimSpec`, `Text.SkipSpacesSpec` and `Text.DropTrailingSpacesSpec` |
| Text.Contains | generate_pdf_reportlab.py:438-443 | the substring test `sub in s`; `Text.ContainsAt` proves it equal to "occurs at some offset" |
| Text.Join | generate_pdf_reportlab.py:256-272 | `sep.join(parts)`; constrained by `Text.JoinSplitLines`, `Text.SplitLinesJoin` and `Text.JoinTrimmed` |
| Text.TrimSpec | generate_pdf_reportlab.py:198 | `strip` leaves no whitespace at either end. It gives the empty string exactly for an all-whitespace line, and leaves a trimmed line unchanged |
| Text.SkipSpacesSpec | generate_pdf_reportlab.py:198 | the leading part `strip` removes is all whitespace, and it stops at the first non-whitespace character |
| Text.DropTrailingSpacesSpec | generate_pdf_reportlab.py:198 | the trailing part `strip` removes is all whitespace, and it stops after the last non-whitespace character |
| Text.ContainsAt | generate_pdf_reportlab.py:438-443 | the substring test `sub in s` holds exactly when `sub` occurs at some offset of `s` |
| Text.JoinTrimmed | generate_pdf_reportlab.py:272 | joining non-empty trimmed pieces with one space gives a non-empty trimmed string |
| Text.SplitLines | generate_pdf_reportlab.py:194 | `split('\n')` yields at least one piece, no piece contains a newline, and every character of a piece comes from the input |
| Text.JoinSplitLines | generate_pdf_reportlab.py:194 | joining the pieces of `split('\n')` with newlines restores the input |
| Text.SplitLinesJoin | generate_pdf_reportlab.py:194 | splitting newline-free lines joined with `'\n'` gives those lines back |
| Text.ReplaceChar | generate_pdf_reportlab.py:475 | `replace` of one character leaves no occurrence of it when the replacement lacks it, and adds only characters of the input or the replacement |
| Text.ReplaceCharConcat | generate_pdf_reportlab.py:475 | replacing in a concatenation is replacing in each part |
| Markdown.RunEndCovers | generate_pdf_reportlab.py:243-268 | every line an inner loop consumes satisfies that loop's guard |
| Markdown.RunEndStops | generate_pdf_reportlab.py:243-268 | the line an inner loop stops at fails its guard |
| Markdown.RunEndEmpty | generate_pdf_reportlab.py:263-271 | an inner loop consumes nothing exactly when the input is exhausted or the first line fails its guard |
| Markdown.Parse | generate_pdf_reportlab.py:191-274 | `_parse_markdown` on the text: the outer loop over `split('\n')` from index 0; computed by `Markdown.ParseMarkdown`, constrained by the termination, well-formedness and block-shape lemmas below |
| Markdown.ParseFrom | generate_pdf_reportlab.py:197-274 | the outer loop from index i: nothing once the index passes the end, otherwise the outcome of the iteration at i followed by the rest; constrained by `Markdown.NoStuckLineParses`, `Markdown.DivergesOnlyAtStuckLine`, `Markdown.ParsedElementsWellFormed` and `Markdown.ExtendByStep` |
| Markdown.Resume | generate_pdf_reportlab.py:197-272 | continuing the loop after one iteration: a stall spins at i, a skip continues at the next index, an emission puts its element in front of the rest |
| Markdown.StepAt | generate_pdf_reportlab.py:197-272 | every iteration of the outer loop that does not stall moves the index strictly forward, to at most one past the end (an unclosed code block) |
| Markdown.StallsExactlyOnStuckLines | generate_pdf_reportlab.py:198-271 | an iteration leaves the index unchanged exactly when the trimmed line starts with `#` but with none of `# `, `## `, `### `, `#### `, or starts with `**` but does not end with `**` |
| Markdown.DivergesOnlyAtStuckLine | generate_pdf_reportlab.py:197-272 | if the loop never ends, it spins at a stuck line at or after where it started |
| Markdown.NoStuckLineParses | generate_pdf_reportlab.py:197-274 | input without stuck lines always finishes the scan |
| Markdown.StuckLineDiverges | generate_pdf_reportlab.py:197-271 | a stuck line preceded only by blank lines makes the loop spin at that line |
| Markdown.StuckLineStalls | generate_pdf_reportlab.py:260-271 | a scan that reaches a stuck line spins there |
| Markdown.BlankLinesParseToNothing | generate_pdf_reportlab.py:197-203 | whitespace-only lines from the current index on yield no elements |
| Markdown.BlankContentParsesToNothing | generate_pdf_reportlab.py:194-203 | all-whitespace content parses to the empty element list |
| Markdown.SkippedLines | generate_pdf_reportlab.py:200-208 | a blank line or a line starting `## Title Page` is passed over without output |
| Markdown.AfterMarker | generate_pdf_reportlab.py:212-230 | after a marker ending in a space, a trimmed line still has non-whitespace text, and its trim is non-empty and trimmed |
| Markdown.ItemTextWellFormed | generate_pdf_reportlab.py:244 | a list item (`strip()[2:].strip()` of a list line) is never empty and is trimmed |
| Markdown.ListItemsWellFormed | generate_pdf_reportlab.py:242-246 | every item collected by the list loop is non-empty and trimmed |
| Markdown.ParagraphWellFormed | generate_pdf_reportlab.py:262-272 | the paragraph text of a non-empty run is non-empty and trimmed |
| Markdown.StepWellFormed | generate_pdf_reportlab.py:210-272 | every emitted element is well formed: heading and paragraph texts are non-empty and trimmed, bold text is trimmed, a list has at least one item and no empty item |
| Markdown.ParsedElementsWellFormed | generate_pdf_reportlab.py:197-274 | every element of a finished parse is well formed |
| Markdown.HashRun | generate_pdf_reportlab.py:211-232 | the count of leading `#` characters is exact: all of them are `#`, and the next character is not |
| Markdown.MarkerShape | generate_pdf_reportlab.py:211-229 | a line starts with the n-hash marker exactly when it has exactly n leading `#` followed by a space |
| Markdown.HeadingByMarkerLength | generate_pdf_reportlab.py:210-232 | a line of 1 to 4 leading `#` then a space is a heading of that level, with the marker dropped and the rest trimmed; any other `#` line (except `## Title Page`) stalls |
| Markdown.BoldLine | generate_pdf_reportlab.py:235-238 | a line that starts and ends with `**` is one bold element with `line[2:-2].strip()`, and an empty payload when the line is shorter than four characters |
| Markdown.ListBlockIsMaximalRun | generate_pdf_reportlab.py:241-247 | a list element covers the maximal run of lines whose trim starts with `- `, and holds their items in source order |
| Markdown.CodeBlockRunsToFence | generate_pdf_reportlab.py:250-257 | a code block holds the unstripped lines up to the first line whose trim starts with three backquotes, or to the end of the input, joined with newlines. Both fences are excluded, and the scan resumes after the closing fence |
| Markdown.ParagraphIsMaximalRun | generate_pdf_reportlab.py:260-272 | a paragraph covers the maximal run of non-blank lines not starting with `#`, `- `, `**` or three backquotes, trimmed and joined with single spaces |
| Markdown.ExtendByStep | generate_pdf_reportlab.py:197-272 | each emitting iteration appends its element after all earlier ones, so elements appear in source order |
| Markdown.ScanList | generate_pdf_reportlab.py:242-246 | the list loop stops at the end of the run of list lines and collects their items in order |
| Markdown.ScanCode | generate_pdf_reportlab.py:251-255 | the code loop stops at the next fence line or the end, and copies the lines between unchanged |
| Markdown.ScanParagraph | generate_pdf_reportlab.py:262-270 | the paragraph loop stops at the end of the run of paragraph lines and collects them trimmed |
| Markdown.ScanBlock | generate_pdf_reportlab.py:198-272 | one iteration of the outer loop body computes exactly the step `StepAt` describes |
| Markdown.ParseMarkdown | generate_pdf_reportlab.py:191-274 | the whole scan returns the parse of the content, or the index at which the source loop would spin |
| Story.EscapeCode | generate_pdf_reportlab.py:475 | `replace('<', '&lt;').replace('>', '&gt;')`; its properties are stated by the escape lemmas below |
| Story.EscapeCodeIsPerCharacter | generate_pdf_reportlab.py:475 | the two chained replaces equal escaping each character on its own |
| Story.EscapeCodeHasNoAngleBrackets | generate_pdf_reportlab.py:475 | escaped code contains no `<` and no `>` |
| Story.EscapeCodeKeepsPlainText | generate_pdf_reportlab.py:475 | code without `<` or `>` is left unchanged, `&` included |
| Story.EscapeEachKeepsPlainText | generate_pdf_reportlab.py:475 | the per-character reference escape leaves text without `<` or `>` unchanged |
| Story.UnescapeEscapeCode | generate_pdf_reportlab.py:475 | for code without `&`, decoding the two entities restores the original |
| Story.UnescapeEscapeEach | generate_pdf_reportlab.py:475 | the same round trip for the per-character reference escape |
| Story.EscapeCodeConflatesEntity | generate_pdf_reportlab.py:475 | because `&` is not escaped, the text `&lt;` and the text `<` escape to the same output |
| Story.Bullets | generate_pdf_reportlab.py:467-471 | a list emits one list-item paragraph per item, in order, each being the item prefixed with `• ` |
| Story.H1Role | generate_pdf_reportlab.py:436-449 | what a level-one heading does, by the first matching test: `Title Page` or `TABLE OF CONTENTS`, then `DEDICATION` or `PREFACE`, then `PART`, else a chapter; stated by `Story.HeadingTestOrder` |
| Story.Layout | generate_pdf_reportlab.py:444-481 | the flowables of one shown element: page break and chapter title for `h1`; a 1-wide spacer of 20, 15, 10, 8, 10 or 8 points before `h2`, `h3`, `h4`, `bold`, `code` and `p`; bullets for a list; bold markup for `h4` and `bold`; escaped code in the Courier font; stated by `Story.LayoutShaped`, `Story.RenderShaped` and `Story.Bullets` |
| Story.Shown | generate_pdf_reportlab.py:436-481 | whether an element reaches the story: a `PART` heading always, a chapter heading and every other element only while the flag is clear, the other headings never; used by `Story.SkippedSectionRendersNothing`, `Story.PartHeadingResets` and `Story.FrontMatterDropped` |
| Story.Emission | generate_pdf_reportlab.py:436-481 | what one pass of the element loop appends: the layout when shown, nothing otherwise; `Story.BookGenerator.AddElement` is proved to append exactly this |
| Story.SkipAfter | generate_pdf_reportlab.py:433-449 | the flag after one element: set by a skip-opening heading, cleared by a `PART` heading, otherwise kept; `Story.BookGenerator.AddElement` returns exactly this |
| Story.Render | generate_pdf_reportlab.py:433-481 | the story of a run of elements from a given flag; constrained by `Story.RenderConcat`, `Story.RenderStep`, `Story.SkipsUntilPart`, `Story.RenderWithoutSkips` and `Story.RenderShaped`, and appended by `Story.BookGenerator.AddElements` |
| Story.SkipStateConcat | generate_pdf_reportlab.py:433-449 | the skip flag after two runs of elements is the flag after the second, started from the flag after the first |
| Story.RenderConcat | generate_pdf_reportlab.py:435-481 | the story of two runs of elements is the first run's story followed by the second's, rendered from the flag the first leaves |
| Story.RenderStep | generate_pdf_reportlab.py:435-481 | rendering from element k is element k's emission followed by the rest under the flag it leaves |
| Story.SkippedSectionRendersNothing | generate_pdf_reportlab.py:447-481 | while the flag is set, elements other than `PART` headings emit nothing and the flag stays set; other `h1` do not clear it |
| Story.SkipsUntilPart | generate_pdf_reportlab.py:438-449 | a `Title Page` or `TABLE OF CONTENTS` heading drops itself and everything up to the next `PART` heading |
| Story.PartHeadingResets | generate_pdf_reportlab.py:443-446 | a `PART` heading always emits a page break and its title, and clears the flag |
| Story.FrontMatterDropped | generate_pdf_reportlab.py:441-442 | a `DEDICATION` or `PREFACE` heading emits nothing and leaves the flag as it was |
| Story.HeadingTestOrder | generate_pdf_reportlab.py:438-449 | the heading tests apply in the source's priority order: skip markers, then front matter, then `PART` |
| Story.RenderWithoutSkips | generate_pdf_reportlab.py:435-481 | without skip-opening headings, the story is every element's layout in order, with dedication and preface headings left out |
| Story.ShapedConcat | generate_pdf_reportlab.py:435-481 | well-shaped stories concatenate to a well-shaped story |
| Story.LayoutShaped | generate_pdf_reportlab.py:444-481 | each element's layout is well shaped (see the next row) |
| Story.RenderShaped | generate_pdf_reportlab.py:433-481 | every story is well shaped. A page break is always followed by a chapter title, and a chapter title is always preceded by one. Every spacer is 1 wide, 8, 10, 15 or 20 high, and followed by a paragraph. List items start with `• `. Code is wrapped in the Courier font tag |
| Story.BookGenerator.constructor | generate_pdf_reportlab.py:38 | a new generator's story is empty |
| Story.BookGenerator.AddElement | generate_pdf_reportlab.py:436-481 | one pass of the loop body appends exactly the element's emission under the flag, and returns the new flag |
| Story.BookGenerator.AddElements | generate_pdf_reportlab.py:433-481 | the element loop, starting with the flag cleared, appends exactly the rendered story of the elements |
| Story.BookGenerator.AddContent | generate_pdf_reportlab.py:431-481 | `_add_content` on given text appends the rendered story of its parse. When the parse would spin, it reports so and leaves the story unchanged |
| Samples.SingleHeading | generate_pdf_reportlab.py:211-214 | `# Title` parses to exactly one level-one heading `Title` |
| Samples.SingleSection | generate_pdf_reportlab.py:217-220 | `## Title` parses to exactly one level-two heading `Title` |
| Samples.ThreeItemList | generate_pdf_reportlab.py:241-247 | `- a`, `- b`, `- c` parse to one list `["a", "b", "c"]` |
| Samples.TwoLineParagraph | generate_pdf_reportlab.py:260-272 | `Hello` and `World` on consecutive lines parse to one paragraph `Hello World` |
| Samples.FencedCode | generate_pdf_reportlab.py:250-257 | a fenced block of two lines parses to one code element of those lines, joined with a newline |
| Samples.StuckLineInCodeIsHarmless | generate_pdf_reportlab.py:250-257 | `#x` is a stuck line, yet a fenced block holding it parses to one code element `#x`, because the code loop copies it without classifying it |
| Samples.TitlePageLineLeavesNothing | generate_pdf_reportlab.py:206-208 | a `## Title Page` line yields no element |
| Samples.HashWithoutSpaceDiverges | generate_pdf_reportlab.py:211-271 | the line `#x` makes the scan spin at line 0 |
| Samples.UnclosedBoldDiverges | generate_pdf_reportlab.py:235-271 | the line `**x` makes the scan spin at line 0 |

## Left out

- ReportLab: the paragraph styles, `SimpleDocTemplate`, the real `Paragraph`, `Spacer` and `PageBreak` objects, and `doc.build`. Flowables are an abstract datatype, and styles are a tag naming the style.
- Page geometry (margins, sizes in `cm` and `inch`) is floating point and not modelled. Spacers keep the source's integer sizes.
- The constructor's other fields (`output_path`, `doc`, `styles`, `_setup_styles`) are not modelled; only `story` is.
- Reading the markdown file (generate_pdf_reportlab.py:428-429) is I/O. `AddContent` takes the file's text as a parameter.
- The entry point and its existence check (generate_pdf_reportlab.py:536-547) are I/O.
- The title page, table of contents, publisher page and PDF build around `_add_content` are fixed literal story parts. They are not modelled.
- Header and footer callbacks (`add_header` in microwave_book_generator.py:68-79, `add_header_footer` in generate_book.py:1680-1701, `header_footer` in simple_pdf_generator.py:54-75) read the clock and draw on a canvas, so they are not modelled.
- generate_pdf.py is a call into the `markdown` and `weasyprint` libraries around a literal template, so it is not modelled.
- microwave_book_generator.py and simple_pdf_generator.py are literal chapter data appended to a story, so they are not modelled.
- generate_book.py is literal book text and is not modelled. Its one split (generate_book.py:1656-1659) splits on the two-character text `\n` rather than on a newline, so most chapters become a single paragraph.
- Markdown.ParseMarkdown: where the source loop never returns, the model returns `Diverges(i)` at the first iteration that would repeat for ever instead of hanging.
- Story.BookGenerator.AddContent: when the parse would spin, the source never returns and never appends anything. The model returns `false` and leaves the story unchanged.
- `Idempotence` of the parse (two calls give the same elements) holds because the model's parse is a function of its input; there is no separate lemma for it.
