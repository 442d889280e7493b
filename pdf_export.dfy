/** The PDF export of the plan display (`handleDownloadPDF`): every line of
    the plan is trimmed, classified, wrapped by the PDF library and placed at
    a vertical cursor that moves down the page; a page is added when the
    cursor has passed a fixed threshold before a line is drawn. The library's
    drawing calls are recorded as a sequence of events. */
module PdfExport {
  import opened Text
  import AppStore

  /** The page margin, in millimetres. */
  const Margin: int := 20

  /** The page size the PDF library reports, rounded to whole millimetres. */
  datatype Geometry = Geometry(pageWidth: int, pageHeight: int)

  /** Portrait A4, the format the export asks for. */
  const A4 := Geometry(210, 297)

  /** The wrapping width of headings, bold lines and paragraphs. */
  function MaxWidth(g: Geometry): int {
    g.pageWidth - Margin * 2
  }

  /** A line is drawn on a new page when the cursor is below this height. */
  function Threshold(g: Geometry): int {
    g.pageHeight - Margin - 10
  }

  /** A font size in points, and whether the face is bold. */
  datatype Font = Font(size: nat, bold: bool)

  /** The library's `splitTextToSize(text, width)`: the pieces a text is wrapped
      into for a given width under the font set just before the call. The font
      metrics themselves are not modelled. */
  type Wrap = (string, int, Font) -> seq<string>

  /** The export's reading of one trimmed line. */
  datatype Block =
    | H1(text: string)
    | H2(text: string)
    | H3(text: string)
    | Bold(text: string)
    | Bullet(text: string)
    | Numbered(text: string)
    | Rule
    | Paragraph(text: string)
    | Empty

  /** The drawing calls made on the document. */
  datatype Event =
    | AddPage
    | DrawText(pieces: seq<string>, x: int, y: int, font: Font)
    | DrawLine(x1: int, y1: int, x2: int, y2: int)

  predicate IsHeadingLine(t: string) {
    StartsWith(t, "# ") || StartsWith(t, "## ") || StartsWith(t, "### ")
  }

  predicate IsBoldLine(t: string) {
    StartsWith(t, "**") && EndsWith(t, "**")
  }

  predicate IsBulletLine(t: string) {
    StartsWith(t, "• ") || StartsWith(t, "* ") || StartsWith(t, "- ")
  }

  predicate IsRuleLine(t: string) {
    StartsWith(t, "---")
  }

  /** The length of the run of digits that `t` begins with. */
  function DigitRun(t: string): (n: nat)
    ensures n <= |t|
    ensures forall i :: 0 <= i < n ==> IsDigit(t[i])
    ensures n < |t| ==> !IsDigit(t[n])
  {
    if t != [] && IsDigit(t[0]) then 1 + DigitRun(t[1..]) else 0
  }

  /** `t.match(/^\d+\.\s/)`, computed from the maximal leading run of digits. */
  predicate IsNumberedLine(t: string) {
    var n := DigitRun(t);
    1 <= n && n + 1 < |t| && t[n] == '.' && IsWs(t[n + 1])
  }

  /** The same regular expression read literally: some non-empty run of
      digits, then a dot, then one white-space character. */
  ghost predicate MatchesNumberedPattern(t: string) {
    exists n :: 1 <= n && n + 1 < |t| && AllDigits(t[..n]) && t[n] == '.' && IsWs(t[n + 1])
  }

  predicate AllDigits(s: string) {
    forall i :: 0 <= i < |s| ==> IsDigit(s[i])
  }

  /** Scanning the maximal digit run decides the pattern exactly. */
  lemma NumberedLineIsPattern(t: string)
    ensures IsNumberedLine(t) <==> MatchesNumberedPattern(t)
  {
    var m := DigitRun(t);
    if IsNumberedLine(t) {
      assert AllDigits(t[..m]);
    }
    if MatchesNumberedPattern(t) {
      var n :| 1 <= n && n + 1 < |t| && AllDigits(t[..n]) && t[n] == '.' && IsWs(t[n + 1]);
      assert m == n;
    }
  }

  /** `t` is `marker`, then white space, then `text`, which does not start
      with white space: what replacing `^marker\s*` by nothing leaves. */
  predicate MarkerThenText(t: string, marker: string, text: string) {
    && StartsWith(t, marker)
    && |marker| + |text| <= |t|
    && t[|t| - |text|..] == text
    && AllWs(t[|marker|..|t| - |text|])
    && (text != [] ==> !IsWs(text[0]))
  }

  lemma StripMarker(t: string, marker: string)
    requires StartsWith(t, marker)
    ensures MarkerThenText(t, marker, StripLeadingWs(t[|marker|..]))
  {
    var rest := t[|marker|..];
    var x := StripLeadingWs(rest);
    StripLeadingWsSuffix(rest);
    assert t[|t| - |x|..] == rest[|rest| - |x|..] == x;
    assert t[|marker|..|t| - |x|] == rest[..|rest| - |x|];
    assert AllWs(rest[..|rest| - |x|]);
  }

  /** The seven tests of the export chain are pairwise exclusive: a line is
      told apart by its first three characters. In particular no line starts
      with two of `# `, `## ` and `### `. */
  lemma ExportTestsExclusive(t: string)
    ensures StartsWith(t, "# ") ==> !StartsWith(t, "## ") && !StartsWith(t, "### ")
    ensures StartsWith(t, "## ") ==> !StartsWith(t, "### ")
    ensures IsHeadingLine(t) ==> !IsBoldLine(t) && !IsBulletLine(t) && !IsNumberedLine(t) && !IsRuleLine(t)
    ensures IsBoldLine(t) ==> !IsBulletLine(t) && !IsNumberedLine(t) && !IsRuleLine(t)
    ensures IsBulletLine(t) ==> !IsNumberedLine(t) && !IsRuleLine(t)
    ensures IsNumberedLine(t) ==> !IsRuleLine(t)
  {
    LeadingChars(t, "# ");
    LeadingChars(t, "## ");
    LeadingChars(t, "### ");
    LeadingChars(t, "**");
    LeadingChars(t, "• ");
    LeadingChars(t, "* ");
    LeadingChars(t, "- ");
    LeadingChars(t, "---");
  }

  /** The branch chain of the export, applied to a trimmed line. */
  function ClassifyExport(t: string): Block {
    if StartsWith(t, "# ") then
      H1(StripLeadingWs(t[1..]))
    else if StartsWith(t, "## ") then
      H2(StripLeadingWs(t[2..]))
    else if StartsWith(t, "### ") then
      H3(StripLeadingWs(t[3..]))
    else if IsBoldLine(t) then
      Bold(RemoveDoubleStars(t))
    else if IsBulletLine(t) then
      Bullet(StripLeadingWs(t[1..]))
    else if IsNumberedLine(t) then
      Numbered(t)
    else if IsRuleLine(t) then
      Rule
    else if |t| > 0 then
      Paragraph(t)
    else
      Empty
  }

  /** The seven tests are pairwise exclusive, so each kind holds exactly when
      its own test does, whatever the order of the chain. */
  lemma ExportKinds(t: string)
    ensures ClassifyExport(t).H1? <==> StartsWith(t, "# ")
    ensures ClassifyExport(t).H2? <==> StartsWith(t, "## ")
    ensures ClassifyExport(t).H3? <==> StartsWith(t, "### ")
    ensures ClassifyExport(t).Bold? <==> IsBoldLine(t)
    ensures ClassifyExport(t).Bullet? <==> IsBulletLine(t)
    ensures ClassifyExport(t).Numbered? <==> IsNumberedLine(t)
    ensures ClassifyExport(t).Rule? <==> IsRuleLine(t)
    ensures ClassifyExport(t).Paragraph? <==>
              t != [] && !IsHeadingLine(t) && !IsBoldLine(t) && !IsBulletLine(t) && !IsNumberedLine(t) && !IsRuleLine(t)
    ensures ClassifyExport(t).Empty? <==> t == []
  {
    ExportTestsExclusive(t);
  }

  /** A heading drops its `#` marker and the white space after it. */
  lemma HeadingText(t: string)
    ensures ClassifyExport(t).H1? ==> MarkerThenText(t, "#", ClassifyExport(t).text)
    ensures ClassifyExport(t).H2? ==> MarkerThenText(t, "##", ClassifyExport(t).text)
    ensures ClassifyExport(t).H3? ==> MarkerThenText(t, "###", ClassifyExport(t).text)
  {
    ExportKinds(t);
    if StartsWith(t, "# ") {
      StripMarker(t, "#");
    } else if StartsWith(t, "## ") {
      assert t[..2] == t[..3][..2];
      StripMarker(t, "##");
    } else if StartsWith(t, "### ") {
      assert t[..3] == t[..4][..3];
      StripMarker(t, "###");
    }
  }

  /** A bullet drops its one-character marker and the white space after it. */
  lemma BulletText(t: string)
    ensures ClassifyExport(t).Bullet? ==> t[0] in "•*-" && MarkerThenText(t, [t[0]], ClassifyExport(t).text)
  {
    ExportKinds(t);
    if IsBulletLine(t) {
      LeadingChars(t, "• ");
      LeadingChars(t, "* ");
      LeadingChars(t, "- ");
      StripMarker(t, [t[0]]);
    }
  }

  /** A bold line loses every `**`; numbered items and paragraphs keep the
      trimmed line verbatim. */
  lemma KeptText(t: string)
    ensures ClassifyExport(t).Bold? ==> ClassifyExport(t).text == RemoveDoubleStars(t)
    ensures ClassifyExport(t).Numbered? || ClassifyExport(t).Paragraph? ==> ClassifyExport(t).text == t
  {
    ExportKinds(t);
  }

  /** How a text block is set: its font, how far right of the margin it
      starts and how much narrower than `MaxWidth` it is wrapped. */
  datatype Style = Style(font: Font, indent: int, narrowing: int)

  function PrintStyle(b: Block): Style {
    match b
    case H1(_) => Style(Font(18, true), 0, 0)
    case H2(_) => Style(Font(14, true), 0, 0)
    case H3(_) => Style(Font(12, true), 0, 0)
    case Bold(_) => Style(Font(10, true), 0, 0)
    case Bullet(_) => Style(Font(10, false), 3, 5)
    case Numbered(_) => Style(Font(10, false), 3, 5)
    case Paragraph(_) => Style(Font(10, false), 0, 0)
    case Rule => Style(Font(10, false), 0, 0)
    case Empty => Style(Font(10, false), 0, 0)
  }

  /** How far the cursor moves past a block wrapped into `k` pieces. */
  function Advance(b: Block, k: nat): int {
    match b
    case H1(_) => k * 8 + 5
    case H2(_) => k * 6 + 4
    case H3(_) => k * 5 + 3
    case Bold(_) => k * 4 + 2
    case Bullet(_) => k * 4 + 1
    case Numbered(_) => k * 4 + 1
    case Paragraph(_) => k * 4 + 2
    case Rule => 6
    case Empty => 3
  }

  /** The text handed to the wrapper: a bullet is redrawn with the `•` marker. */
  function RunText(b: Block): string
    requires !b.Rule? && !b.Empty?
  {
    if b.Bullet? then "• " + b.text else b.text
  }

  /** The cursor, the number of pages and the drawing calls so far. */
  datatype LayoutState = LayoutState(y: int, pages: nat, events: seq<Event>)

  const Start := LayoutState(Margin, 1, [])

  /** The check made before each source line. */
  function BreakIfNeeded(g: Geometry, st: LayoutState): LayoutState {
    if st.y > Threshold(g) then LayoutState(Margin, st.pages + 1, st.events + [AddPage]) else st
  }

  /** Draws one block at the cursor and moves the cursor past it. */
  function Draw(g: Geometry, wrap: Wrap, st: LayoutState, b: Block): LayoutState {
    match b
    case Rule =>
      LayoutState(st.y + Advance(b, 0), st.pages, st.events + [DrawLine(Margin, st.y, g.pageWidth - Margin, st.y)])
    case Empty =>
      st.(y := st.y + Advance(b, 0))
    case _ =>
      var style := PrintStyle(b);
      var pieces := wrap(RunText(b), MaxWidth(g) - style.narrowing, style.font);
      LayoutState(st.y + Advance(b, |pieces|), st.pages,
                  st.events + [DrawText(pieces, Margin + style.indent, st.y, style.font)])
  }

  /** One iteration of the export loop. */
  function LayLine(g: Geometry, wrap: Wrap, st: LayoutState, line: string): LayoutState {
    Draw(g, wrap, BreakIfNeeded(g, st), ClassifyExport(Trim(line)))
  }

  /** The state after laying out `lines` in order from a fresh first page. */
  function Layout(g: Geometry, wrap: Wrap, lines: seq<string>): LayoutState {
    if lines == [] then Start
    else LayLine(g, wrap, Layout(g, wrap, lines[..|lines| - 1]), lines[|lines| - 1])
  }

  lemma LayoutStep(g: Geometry, wrap: Wrap, lines: seq<string>, i: nat)
    requires i < |lines|
    ensures Layout(g, wrap, lines[..i + 1]) == LayLine(g, wrap, Layout(g, wrap, lines[..i]), lines[i])
  {
    assert lines[..i + 1][..i] == lines[..i];
  }

  /** The drawing calls of one block at the cursor, and the cursor's advance. */
  method DrawBlock(g: Geometry, wrap: Wrap, y0: int, pages: nat, events0: seq<Event>, block: Block)
    returns (y: int, events: seq<Event>)
    ensures LayoutState(y, pages, events) == Draw(g, wrap, LayoutState(y0, pages, events0), block)
  {
    var maxWidth := g.pageWidth - Margin * 2;
    match block {
      case H1(text) =>
        var split := wrap(text, maxWidth, Font(18, true));
        events := events0 + [DrawText(split, Margin, y0, Font(18, true))];
        y := y0 + |split| * 8 + 5;
      case H2(text) =>
        var split := wrap(text, maxWidth, Font(14, true));
        events := events0 + [DrawText(split, Margin, y0, Font(14, true))];
        y := y0 + |split| * 6 + 4;
      case H3(text) =>
        var split := wrap(text, maxWidth, Font(12, true));
        events := events0 + [DrawText(split, Margin, y0, Font(12, true))];
        y := y0 + |split| * 5 + 3;
      case Bold(text) =>
        var split := wrap(text, maxWidth, Font(10, true));
        events := events0 + [DrawText(split, Margin, y0, Font(10, true))];
        y := y0 + |split| * 4 + 2;
      case Bullet(text) =>
        var split := wrap("• " + text, maxWidth - 5, Font(10, false));
        events := events0 + [DrawText(split, Margin + 3, y0, Font(10, false))];
        y := y0 + |split| * 4 + 1;
      case Numbered(text) =>
        var split := wrap(text, maxWidth - 5, Font(10, false));
        events := events0 + [DrawText(split, Margin + 3, y0, Font(10, false))];
        y := y0 + |split| * 4 + 1;
      case Rule =>
        events := events0 + [DrawLine(Margin, y0, g.pageWidth - Margin, y0)];
        y := y0 + 6;
      case Paragraph(text) =>
        var split := wrap(text, maxWidth, Font(10, false));
        events := events0 + [DrawText(split, Margin, y0, Font(10, false))];
        y := y0 + |split| * 4 + 2;
      case Empty =>
        events := events0;
        y := y0 + 3;
    }
  }

  /** One pass of the export loop's body: the page-break check before the
      line, then the drawing calls for its trimmed form. */
  method PlaceLine(g: Geometry, wrap: Wrap, y0: int, pages0: nat, events0: seq<Event>, line: string)
    returns (y: int, pages: nat, events: seq<Event>)
    ensures LayoutState(y, pages, events) == LayLine(g, wrap, LayoutState(y0, pages0, events0), line)
  {
    y, pages, events := y0, pages0, events0;
    if y > g.pageHeight - Margin - 10 {
      events := events + [AddPage];
      pages := pages + 1;
      y := Margin;
    }
    assert LayoutState(y, pages, events) == BreakIfNeeded(g, LayoutState(y0, pages0, events0));
    var block := ClassifyExport(Trim(line));
    y, events := DrawBlock(g, wrap, y, pages, events, block);
  }

  /** The layout pass of `handleDownloadPDF`: the loop over the lines of the
      plan, with its cursor, its page-break check and its drawing calls. */
  method LayoutPdf(plan: string, g: Geometry, wrap: Wrap) returns (y: int, pages: nat, events: seq<Event>)
    ensures LayoutState(y, pages, events) == Layout(g, wrap, Split(plan, '\n'))
  {
    var lines := Split(plan, '\n');
    y, pages, events := Margin, 1, [];
    var i := 0;
    while i < |lines|
      invariant 0 <= i <= |lines|
      invariant LayoutState(y, pages, events) == Layout(g, wrap, lines[..i])
    {
      y, pages, events := PlaceLine(g, wrap, y, pages, events, lines[i]);
      LayoutStep(g, wrap, lines, i);
      assert LayoutState(y, pages, events) == Layout(g, wrap, lines[..i + 1]);
      i := i + 1;
    }
    assert lines[..i] == lines;
  }

  /** The number of page additions among the drawing calls. */
  function PageBreaks(events: seq<Event>): nat {
    if events == [] then 0
    else PageBreaks(events[..|events| - 1]) + (if events[|events| - 1].AddPage? then 1 else 0)
  }

  /** The height at which a text run or a rule is drawn. */
  function EventY(e: Event): int
    requires !e.AddPage?
  {
    if e.DrawText? then e.y else e.y1
  }

  /** No page is added strictly between positions `i` and `j` of the log. */
  ghost predicate NoPageBetween(events: seq<Event>, i: int, j: int)
    requires 0 <= i <= j <= |events|
  {
    forall k :: i < k < j ==> !events[k].AddPage?
  }

  /** On each page the drawing calls go strictly down the page. */
  ghost predicate Rising(events: seq<Event>) {
    forall i, j :: 0 <= i < j < |events| && !events[i].AddPage? && !events[j].AddPage? && NoPageBetween(events, i, j)
      ==> EventY(events[i]) < EventY(events[j])
  }

  /** What holds of the export's state after every line: the cursor never
      rises above the margin; the page count is one plus the number of page
      additions; every run and rule starts between the margin and the break
      threshold; calls on one page go down the page; and every call on the
      current page lies above the cursor. */
  ghost predicate WellPlaced(g: Geometry, st: LayoutState) {
    && st.y >= Margin
    && st.pages == 1 + PageBreaks(st.events)
    && (forall i :: 0 <= i < |st.events| && !st.events[i].AddPage? ==> Margin <= EventY(st.events[i]) <= Threshold(g))
    && Rising(st.events)
    && (forall i :: 0 <= i < |st.events| && !st.events[i].AddPage? && NoPageBetween(st.events, i, |st.events|)
          ==> EventY(st.events[i]) < st.y)
  }

  lemma PageBreaksAppend(events: seq<Event>, e: Event)
    ensures PageBreaks(events + [e]) == PageBreaks(events) + (if e.AddPage? then 1 else 0)
  {
    assert (events + [e])[..|events|] == events;
  }

  /** Adding a page and moving the cursor back to the margin keeps the invariant. */
  lemma BreakKeepsPlaced(g: Geometry, st: LayoutState)
    requires Margin <= Threshold(g)
    requires WellPlaced(g, st)
    ensures WellPlaced(g, LayoutState(Margin, st.pages + 1, st.events + [AddPage]))
  {
    var ev := st.events + [AddPage];
    PageBreaksAppend(st.events, AddPage);
    forall i, j | 0 <= i < j < |ev| && !ev[i].AddPage? && !ev[j].AddPage? && NoPageBetween(ev, i, j)
      ensures EventY(ev[i]) < EventY(ev[j])
    {
      assert NoPageBetween(st.events, i, j);
    }
    forall i | 0 <= i < |ev| && !ev[i].AddPage?
      ensures !NoPageBetween(ev, i, |ev|)
    {
      assert ev[|st.events|].AddPage?;
    }
  }

  /** Drawing at the cursor, when the cursor is above the threshold, and then
      moving the cursor down keeps the invariant. */
  lemma DrawKeepsPlaced(g: Geometry, st: LayoutState, e: Event, y: int)
    requires WellPlaced(g, st)
    requires !e.AddPage? && EventY(e) == st.y && st.y <= Threshold(g) && y > st.y
    ensures WellPlaced(g, LayoutState(y, st.pages, st.events + [e]))
  {
    var ev := st.events + [e];
    var n := |st.events|;
    PageBreaksAppend(st.events, e);
    forall i, j | 0 <= i < j < |ev| && !ev[i].AddPage? && !ev[j].AddPage? && NoPageBetween(ev, i, j)
      ensures EventY(ev[i]) < EventY(ev[j])
    {
      assert NoPageBetween(st.events, i, if j < n then j else n);
    }
    forall i | 0 <= i < |ev| && !ev[i].AddPage? && NoPageBetween(ev, i, |ev|)
      ensures EventY(ev[i]) < y
    {
      if i < n {
        assert NoPageBetween(st.events, i, n);
      }
    }
  }

  /** Every advance moves the cursor down by at least one unit. */
  lemma AdvancePositive(b: Block, k: nat)
    ensures Advance(b, k) >= 1
  {
  }

  /** Moving the cursor down keeps the invariant. */
  lemma MoveKeepsPlaced(g: Geometry, st: LayoutState, y: int)
    requires WellPlaced(g, st) && y > st.y
    ensures WellPlaced(g, LayoutState(y, st.pages, st.events))
  {
  }

  /** Drawing one block at a cursor above the threshold keeps the invariant. */
  lemma DrawKeepsPlacedBlock(g: Geometry, wrap: Wrap, st: LayoutState, b: Block)
    requires WellPlaced(g, st) && st.y <= Threshold(g)
    ensures WellPlaced(g, Draw(g, wrap, st, b))
  {
    match b {
      case Rule =>
        var e := DrawLine(Margin, st.y, g.pageWidth - Margin, st.y);
        assert Draw(g, wrap, st, b) == LayoutState(st.y + 6, st.pages, st.events + [e]);
        DrawKeepsPlaced(g, st, e, st.y + 6);
      case Empty =>
        assert Draw(g, wrap, st, b) == LayoutState(st.y + 3, st.pages, st.events);
        MoveKeepsPlaced(g, st, st.y + 3);
      case _ =>
        DrawKeepsPlacedText(g, wrap, st, b);
    }
  }

  /** The same for a block drawn as one text run. */
  lemma DrawKeepsPlacedText(g: Geometry, wrap: Wrap, st: LayoutState, b: Block)
    requires WellPlaced(g, st) && st.y <= Threshold(g)
    requires !b.Rule? && !b.Empty?
    ensures WellPlaced(g, Draw(g, wrap, st, b))
  {
    var style := PrintStyle(b);
    var pieces := wrap(RunText(b), MaxWidth(g) - style.narrowing, style.font);
    var e := DrawText(pieces, Margin + style.indent, st.y, style.font);
    var y := st.y + Advance(b, |pieces|);
    AdvancePositive(b, |pieces|);
    assert Draw(g, wrap, st, b) == LayoutState(y, st.pages, st.events + [e]);
    DrawKeepsPlaced(g, st, e, y);
  }

  /** One line of the export keeps the invariant, provided the page is tall
      enough for the margin to lie above the threshold. */
  lemma LayLineKeepsPlaced(g: Geometry, wrap: Wrap, st: LayoutState, line: string)
    requires Margin <= Threshold(g)
    requires WellPlaced(g, st)
    ensures WellPlaced(g, LayLine(g, wrap, st, line))
  {
    if st.y > Threshold(g) {
      BreakKeepsPlaced(g, st);
    }
    DrawKeepsPlacedBlock(g, wrap, BreakIfNeeded(g, st), ClassifyExport(Trim(line)));
  }

  /** The export's guarantees about any plan: the page count is one plus the
      number of page additions, the cursor stays below the top margin, each
      run and rule starts between the margin and the threshold, and on each
      page the drawing calls go strictly down the page. */
  lemma {:induction false} LayoutWellPlaced(g: Geometry, wrap: Wrap, lines: seq<string>)
    requires Margin <= Threshold(g)
    ensures WellPlaced(g, Layout(g, wrap, lines))
  {
    if lines != [] {
      LayoutWellPlaced(g, wrap, lines[..|lines| - 1]);
      LayLineKeepsPlaced(g, wrap, Layout(g, wrap, lines[..|lines| - 1]), lines[|lines| - 1]);
    }
  }

  /** Where each kind of block is drawn and how it is wrapped: headings, bold
      lines and paragraphs at the margin and to the full width; bullets and
      numbered items three units in and five units narrower, a bullet with its
      marker redrawn as `•`; a rule across the page between the margins at the
      cursor; nothing for an empty line. Drawing never adds a page. */
  lemma DrawPlacement(g: Geometry, wrap: Wrap, st: LayoutState, b: Block)
    ensures Draw(g, wrap, st, b).pages == st.pages
    ensures b.H1? || b.H2? || b.H3? || b.Bold? || b.Paragraph? ==>
              Draw(g, wrap, st, b).events == st.events + [DrawText(wrap(b.text, MaxWidth(g), PrintStyle(b).font), Margin, st.y, PrintStyle(b).font)]
    ensures b.Bullet? ==>
              Draw(g, wrap, st, b).events == st.events + [DrawText(wrap("• " + b.text, MaxWidth(g) - 5, Font(10, false)), Margin + 3, st.y, Font(10, false))]
    ensures b.Numbered? ==>
              Draw(g, wrap, st, b).events == st.events + [DrawText(wrap(b.text, MaxWidth(g) - 5, Font(10, false)), Margin + 3, st.y, Font(10, false))]
    ensures b.Rule? ==>
              Draw(g, wrap, st, b).events == st.events + [DrawLine(Margin, st.y, g.pageWidth - Margin, st.y)]
    ensures b.Empty? ==> Draw(g, wrap, st, b).events == st.events
    ensures forall e :: e in Draw(g, wrap, st, b).events[|st.events|..] ==> !e.AddPage?
  {
    var after := Draw(g, wrap, st, b);
    assert after.events[..|st.events|] == st.events;
  }

  /** How far the cursor moves past each kind of block, for a block the
      library wraps into `k` pieces: `8k+5`, `6k+4` and `5k+3` for the three
      headings, `4k+2` for bold lines and paragraphs, `4k+1` for bullets and
      numbered items, 6 for a rule and 3 for an empty line. */
  lemma CursorAdvance(g: Geometry, wrap: Wrap, st: LayoutState, b: Block)
    ensures b.H1? ==> Draw(g, wrap, st, b).y == st.y + 8 * |wrap(b.text, MaxWidth(g), Font(18, true))| + 5
    ensures b.H2? ==> Draw(g, wrap, st, b).y == st.y + 6 * |wrap(b.text, MaxWidth(g), Font(14, true))| + 4
    ensures b.H3? ==> Draw(g, wrap, st, b).y == st.y + 5 * |wrap(b.text, MaxWidth(g), Font(12, true))| + 3
    ensures b.Bold? ==> Draw(g, wrap, st, b).y == st.y + 4 * |wrap(b.text, MaxWidth(g), Font(10, true))| + 2
    ensures b.Paragraph? ==> Draw(g, wrap, st, b).y == st.y + 4 * |wrap(b.text, MaxWidth(g), Font(10, false))| + 2
    ensures b.Bullet? ==> Draw(g, wrap, st, b).y == st.y + 4 * |wrap("• " + b.text, MaxWidth(g) - 5, Font(10, false))| + 1
    ensures b.Numbered? ==> Draw(g, wrap, st, b).y == st.y + 4 * |wrap(b.text, MaxWidth(g) - 5, Font(10, false))| + 1
    ensures b.Rule? ==> Draw(g, wrap, st, b).y == st.y + 6
    ensures b.Empty? ==> Draw(g, wrap, st, b).y == st.y + 3
  {
  }

  /** The page count is never more than one plus the number of lines: at most
      one page is added per line. */
  lemma {:induction false} PagesAtMostLines(g: Geometry, wrap: Wrap, lines: seq<string>)
    ensures Layout(g, wrap, lines).pages <= 1 + |lines|
  {
    if lines != [] {
      var init := lines[..|lines| - 1];
      PagesAtMostLines(g, wrap, init);
      DrawPlacement(g, wrap, BreakIfNeeded(g, Layout(g, wrap, init)), ClassifyExport(Trim(lines[|lines| - 1])));
    }
  }

  /** The page break is checked once per source line, never between the
      wrapped pieces of a line: on an A4 page, a plan of one paragraph line
      stays on one page whatever the wrapper gives, and the cursor passes the
      bottom of the page exactly when the paragraph is wrapped into 69
      pieces or more. */
  lemma LongParagraphOverflows(wrap: Wrap, line: string)
    requires ClassifyExport(Trim(line)).Paragraph?
    ensures Layout(A4, wrap, [line]).pages == 1
    ensures Layout(A4, wrap, [line]).y > A4.pageHeight
        <==> |wrap(Trim(line), MaxWidth(A4), Font(10, false))| >= 69
  {
    assert [line][..0] == [];
    var b := ClassifyExport(Trim(line));
    KeptText(Trim(line));
    assert b == Paragraph(Trim(line));
    assert BreakIfNeeded(A4, Start) == Start;
    assert Layout(A4, wrap, [line]) == Draw(A4, wrap, Start, b);
    CursorAdvance(A4, wrap, Start, b);
    DrawPlacement(A4, wrap, Start, b);
    var k := |wrap(Trim(line), MaxWidth(A4), Font(10, false))|;
    assert Layout(A4, wrap, [line]).y == Margin + 4 * k + 2;
  }

  /** The date written into the file name: the timestamp up to its first `T`. */
  function DatePart(iso: string): (date: string)
    ensures StartsWith(iso, date) && 'T' !in date
    ensures |date| < |iso| ==> iso[|date|] == 'T'
  {
    SplitPieces(iso, 'T');
    SplitFirst(iso, 'T');
    Split(iso, 'T')[0]
  }

  /** `marketing-plan-<date>.pdf`. */
  function ExportFilename(iso: string): string {
    "marketing-plan-" + DatePart(iso) + ".pdf"
  }

  /** For a timestamp `<date>T<time>` whose date part holds no `T`, the date
      is exactly what precedes the first `T`, so the file is named after it. */
  lemma FilenameOfTimestamp(date: string, time: string)
    requires 'T' !in date
    ensures DatePart(date + "T" + time) == date
    ensures ExportFilename(date + "T" + time) == "marketing-plan-" + date + ".pdf"
  {
    SplitAcross(date, 'T', time);
    SplitSingle(date, 'T');
  }

  /** A `toISOString` value is `YYYY-MM-DDTHH:mm:ss.sssZ`: its first ten
      characters are the date, so the file is named after them. */
  lemma IsoFilename(iso: string)
    requires |iso| > 10 && iso[10] == 'T'
    requires forall i :: 0 <= i < 10 ==> iso[i] != 'T'
    ensures ExportFilename(iso) == "marketing-plan-" + iso[..10] + ".pdf"
  {
    assert iso == iso[..10] + "T" + iso[11..];
    FilenameOfTimestamp(iso[..10], iso[11..]);
  }

  /** A PDF handed to the browser: its name, its page count and its drawing calls. */
  datatype SavedPdf = SavedPdf(name: string, pages: nat, events: seq<Event>)

  /** What a download does, in order: the busy flag set, a file saved, an
      error reported. */
  datatype DownloadStep = Busy(on: bool) | Save(pdf: SavedPdf) | Alert

  /** The plan display's download state and what its downloads produced. */
  class PlanDisplay {
    const store: AppStore.Store
    var isDownloading: bool
    /** Every change to the busy flag, every save and every error report, in
        the order they happen. */
    ghost var log: seq<DownloadStep>
    var saved: seq<SavedPdf>
    var errorAlerts: nat

    constructor (store: AppStore.Store)
      ensures this.store == store
      ensures !isDownloading && log == [] && saved == [] && errorAlerts == 0
    {
      this.store := store;
      isDownloading := false;
      log := [];
      saved := [];
      errorAlerts := 0;
    }

    /** `handleDownloadPDF`. The page geometry and the wrapper are the PDF
        library's; `isoNow` is the current time as an ISO string; `fails`
        says whether the library throws during the pass, in which case an
        error is reported and no file is saved. Without a plan (none, or the
        empty text) nothing happens; otherwise the busy flag is raised for
        the pass and lowered after it on both paths. */
    method HandleDownloadPdf(g: Geometry, wrap: Wrap, isoNow: string, fails: bool)
      modifies this
      ensures store.marketingPlan == old(store.marketingPlan)
      ensures store.marketingPlan.None? || store.marketingPlan.value == [] ==>
                isDownloading == old(isDownloading) && log == old(log)
                && saved == old(saved) && errorAlerts == old(errorAlerts)
      ensures store.marketingPlan.Some? && store.marketingPlan.value != [] ==>
                && !isDownloading
                && (fails ==>
                      && log == old(log) + [Busy(true), Alert, Busy(false)]
                      && saved == old(saved) && errorAlerts == old(errorAlerts) + 1)
                && (!fails ==>
                      var done := Layout(g, wrap, Split(store.marketingPlan.value, '\n'));
                      var pdf := SavedPdf(ExportFilename(isoNow), done.pages, done.events);
                      && log == old(log) + [Busy(true), Save(pdf), Busy(false)]
                      && saved == old(saved) + [pdf]
                      && errorAlerts == old(errorAlerts))
    {
      if store.marketingPlan.None? || store.marketingPlan.value == [] {
        return;
      }
      ghost var log0 := log;
      isDownloading := true;
      log := log + [Busy(true)];
      ghost var step: DownloadStep;
      if fails {
        errorAlerts := errorAlerts + 1;
        step := Alert;
      } else {
        var y, pages, events := LayoutPdf(store.marketingPlan.value, g, wrap);
        var pdf := SavedPdf(ExportFilename(isoNow), pages, events);
        saved := saved + [pdf];
        step := Save(pdf);
      }
      log := log + [step];
      isDownloading := false;
      log := log + [Busy(false)];
      assert log == log0 + [Busy(true), step, Busy(false)];
    }
  }
}
