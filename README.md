# SaaSMarketry Lite — plan rendering, export and usage gate

SaaSMarketry Lite generates a seven-day marketing plan from five form fields
(product name, description, target audience, budget, goals), shows it on
screen and exports it as a PDF. At most two plans are generated until the
usage count is reset: sharing from the usage-limit toast resets it, and the
store keeps it across sessions.
This project models the logic behind that, and proves properties about it:

- **The store** (`AppStore`). This is the zustand record: a theme
  flag, the current plan, a usage count and the form fields.
  - `Apply` reduces its six actions over the `AppState` value.
  - The class `Store` holds the same record in mutable fields. Each of its
    methods is proved to leave the store in the state `Apply` gives.
- **The plan form** (`PlanForm`).
  - The template `generateMockMarketingPlan`: sixteen sections of lines plus
    a sign-off, joined by newlines.
  - The usage gate of `handleSubmit`, `isDisabled` and the submit button.
  - The class `Form`, whose `HandleSubmit` drives the store.
- **The PDF export** (`PdfExport`), that is `handleDownloadPDF`.
  - Each line of the plan is trimmed and read by a chain of tests. The
    possible kinds are H1, H2, H3, bold, bullet, numbered, rule, paragraph
    and empty.
  - Each line is then drawn at a vertical cursor, which moves down by a
    formula for its kind.
  - A page is added when the cursor has passed `pageHeight − 30` before a
    line.
  - The PDF library's drawing calls are recorded as a list of events.
  - `LayoutPdf` is the loop, proved equal to the function `Layout`. About
    `Layout` it is proved, for a page tall enough for the margin to lie above
    the break threshold (`Margin <= Threshold(g)`, that is a page height of
    at least 50), that:
    - the page count is one plus the number of page breaks;
    - every text run and rule starts between the margin and the break
      threshold;
    - on each page, the calls go strictly down the page.
  - `PlanDisplay.HandleDownloadPdf` adds the busy flag, the error path and
    the file name `marketing-plan-<date>.pdf`.
- **The on-screen formatter** (`ScreenFormat`), that is
  `formatMarkdownContent`. One display node is made per raw, untrimmed line,
  by a different chain of tests.
- **Comparing the two readings** (`Classifiers`). They agree on lines that
  are their own trim, except that numbered items are paragraphs on screen.
  They part on indented lines and on markers followed by several spaces.
- **`Text`**: the JavaScript string operations the code relies on.
  - `trim` over the ECMAScript white-space set;
  - `split`/`join` on one character;
  - the global replacement of `**`.

The PDF library's text wrapping (`splitTextToSize`) is a parameter
`wrap: (string, int, Font) -> seq<string>` of the model. It receives the
text, the width and the font set just before the call, so a heading and a
paragraph may wrap differently. The page size is integer parameters (`A4` is
210×297). The current time is an ISO string parameter.

Two behaviours of the code deserve a note:

- **Page breaks.** The break is checked once per source line, before the
  line is drawn, and never between the wrapped pieces of one line (lines
  36-41 of `MarketingPlanDisplay.tsx`). A long wrapped block can therefore
  run past the bottom of the page. By `LongParagraphOverflows`, on A4 a
  plan of one paragraph line stays on one page whatever the wrapper does,
  and the cursor ends below the page exactly when the wrapper gives 69
  pieces or more.
- **Screen and PDF readings.** The screen and the PDF read each line with
  two different chains of tests: the PDF trims the line first and knows
  numbered items; the screen does not trim, tests for blank lines before
  rules, and strips one space after a bullet marker. The lemmas in
  `Classifiers` state where they agree and where they part.

## Model

| member | source | states |
|---|---|---|
| Text.StripLeadingWs | src/components/MarketingPlanDisplay.tsx:49 | the result is no longer than the input and does not begin with white space |
| Text.StripLeadingWsSuffix | src/components/MarketingPlanDisplay.tsx:49 | what `^\s*` removal keeps is a suffix, and everything removed is white space |
| Text.StripTrailingWs | src/components/MarketingPlanDisplay.tsx:43 | the result is no longer than the input and does not end with white space |
| Text.StripTrailingWsPrefix | src/components/MarketingPlanDisplay.tsx:43 | what trailing-space removal keeps is a prefix, and everything removed is white space |
| Text.Trim | src/components/MarketingPlanDisplay.tsx:43 | `trim()` yields no white space at either end and is no longer than its input |
| Text.TrimIsInfix | src/components/MarketingPlanDisplay.tsx:43 | the trimmed line is an infix of the line with only white space before and after it |
| Text.TrimOfTrimmed | src/components/MarketingPlanDisplay.tsx:43 | a string without white space at its ends is its own trim |
| Text.TrimIdempotent | src/components/MarketingPlanDisplay.tsx:43 | trimming twice is trimming once |
| Text.TrimNoWs | src/components/MarketingPlanDisplay.tsx:43 | a string with no white space is unchanged by trimming |
| Text.RemoveDoubleStars | src/components/MarketingPlanDisplay.tsx:73 | `replace(/\*\*/g, '')` removes an even number of characters and keeps a first character that is not `*` |
| Text.RemoveDoubleStarsClean | src/components/MarketingPlanDisplay.tsx:73 | the result holds no `**`, and its characters other than `*` are those of the input, in order |
| Text.StarRun | src/components/MarketingPlanDisplay.tsx:73 | the run found is all stars and is maximal |
| Text.PairStep | src/components/MarketingPlanDisplay.tsx:73 | a run of at least two stars loses its first two and the scan goes on after them |
| Text.LoneStep | src/components/MarketingPlanDisplay.tsx:73 | a single star before a character that is not a star is kept |
| Text.RunRemoval | src/components/MarketingPlanDisplay.tsx:73 | a maximal run of stars vanishes when its length is even and leaves one star when it is odd, and the removal goes on after it |
| Text.RemoveDoubleStarsCollapses | src/components/MarketingPlanDisplay.tsx:73 | the left-to-right removal equals turning every maximal run of `n` stars into one star in place when `n` is odd and into nothing when it is even, every other character kept; so `a***b` gives `a*b` |
| Text.Split | src/components/MarketingPlanDisplay.tsx:33 | `split` yields at least one piece |
| Text.SplitPieces | src/components/MarketingPlanDisplay.tsx:33 | no piece contains the separator |
| Text.SplitFirst | src/components/MarketingPlanDisplay.tsx:111 | the first piece is a prefix of the text, followed by the separator when it is shorter than the text |
| Text.SplitCount | src/components/MarketingPlanDisplay.tsx:122-123 | there is one more piece than separators |
| Text.JoinSplit | src/components/MarketingPlanDisplay.tsx:33 | joining the pieces with the separator restores the text |
| Text.SplitAcross | src/components/MarketingPlanDisplay.tsx:33 | splitting `a + sep + b` gives the pieces of `a` followed by those of `b` |
| Text.SplitSingle | src/components/MarketingPlanDisplay.tsx:33 | a text without the separator splits into itself alone |
| Text.SplitJoin | src/components/MarketingPlanDisplay.tsx:33 | splitting undoes joining when no piece holds the separator |
| Text.JoinAppend | src/components/MarketingPlanForm.tsx:28-187 | joining two non-empty line lists in a row puts one separator between their joins |
| Text.JoinThree | src/components/MarketingPlanForm.tsx:28-187 | in the join of three non-empty line lists, the join of the middle one follows the join of the first and one separator |
| Text.SplitJoinPrefix | src/components/MarketingPlanDisplay.tsx:33 | the lines of a joined text begin with any first part free of separators |
| Text.SplitJoinSuffix | src/components/MarketingPlanDisplay.tsx:33 | the lines of a joined text end with any last part free of separators |
| Text.SplitJoinInfix | src/components/MarketingPlanDisplay.tsx:33 | the lines of a joined text hold any middle part free of separators, unchanged, between the lines of the parts around it |
| AppStore.Merge | src/store/useAppStore.ts:41-43 | `{ ...formData, ...data }`: a field takes the patch's value where the patch has one (definition; `MergeFields` and `UpdateFormLaws` state its properties) |
| AppStore.Apply | src/store/useAppStore.ts:36-43 | the six actions as one reducer over the store's record (definition; `OnlyTargetChanges`, `ToggleTwice`, `PlanActions` and `UsageActions` state its properties) |
| AppStore.OnlyTargetChanges | src/store/useAppStore.ts:36-43 | every action leaves every top-level field other than its own unchanged |
| AppStore.ToggleTwice | src/store/useAppStore.ts:36 | toggling negates the theme flag, and toggling twice restores the state |
| AppStore.PlanActions | src/store/useAppStore.ts:37-38 | setting stores exactly the given plan; clearing stores null, whatever was set before |
| AppStore.UsageActions | src/store/useAppStore.ts:39-40 | incrementing adds exactly one; resetting gives zero from any count |
| AppStore.MergeFields | src/store/useAppStore.ts:41-43 | each form field takes the patch's value where the patch has one and keeps its own otherwise |
| AppStore.UpdateFormLaws | src/store/useAppStore.ts:41-43 | the form update is idempotent, the empty patch changes nothing, and two updates equal one with the combined patch |
| AppStore.Store.constructor | src/store/useAppStore.ts:26-35 | the store starts light-themed, without a plan, at count zero and with five empty fields |
| AppStore.Store.ToggleDarkMode | src/store/useAppStore.ts:36 | the new state is the toggle action applied to the old one; the flag is negated |
| AppStore.Store.SetMarketingPlan | src/store/useAppStore.ts:37 | the new state is the set action applied to the old one; the plan is the argument |
| AppStore.Store.ClearMarketingPlan | src/store/useAppStore.ts:38 | the new state is the clear action applied to the old one; there is no plan |
| AppStore.Store.IncrementUsage | src/store/useAppStore.ts:39 | the new state is the increment action applied to the old one; the count is one more |
| AppStore.Store.ResetUsage | src/store/useAppStore.ts:40 | the new state is the reset action applied to the old one; the count is zero |
| AppStore.Store.UpdateFormData | src/store/useAppStore.ts:41-43 | the new state is the update action applied to the old one; the form is the shallow merge |
| PdfExport.IsNumberedLine | src/components/MarketingPlanDisplay.tsx:85 | the `^\d+\.\s` test (definition; `NumberedLineIsPattern` proves it equal to the pattern) |
| PdfExport.ClassifyExport | src/components/MarketingPlanDisplay.tsx:43-107 | the chain of tests on the trimmed line and the text each branch draws (definition; `ExportKinds`, `HeadingText`, `BulletText` and `KeptText` state its properties) |
| PdfExport.PrintStyle | src/components/MarketingPlanDisplay.tsx:47-101 | the font, indent and narrowing of each kind (definition; `DrawPlacement` states where they go) |
| PdfExport.Advance | src/components/MarketingPlanDisplay.tsx:52-106 | the cursor advance of each kind (definition; `CursorAdvance` states it per kind) |
| PdfExport.BreakIfNeeded | src/components/MarketingPlanDisplay.tsx:38-41 | the page-break check before a line (definition; `BreakKeepsPlaced` and `PagesAtMostLines` state its properties) |
| PdfExport.Draw | src/components/MarketingPlanDisplay.tsx:45-107 | the drawing of one block and the cursor's move (definition; `DrawPlacement`, `CursorAdvance` and `DrawKeepsPlacedBlock` state its properties) |
| PdfExport.LayLine | src/components/MarketingPlanDisplay.tsx:36-107 | one pass of the loop: break check, trim, classify, draw (definition; `LayLineKeepsPlaced` states its invariant) |
| PdfExport.Layout | src/components/MarketingPlanDisplay.tsx:33-108 | the loop over all the lines from a fresh first page (definition; `LayoutWellPlaced`, `PagesAtMostLines` and `LongParagraphOverflows` state its properties) |
| PdfExport.DigitRun | src/components/MarketingPlanDisplay.tsx:85 | the run found is all digits, and is maximal |
| PdfExport.NumberedLineIsPattern | src/components/MarketingPlanDisplay.tsx:85 | the digit-run scan holds exactly when `^\d+\.\s` matches |
| PdfExport.StripMarker | src/components/MarketingPlanDisplay.tsx:49-81 | removing `^marker\s*` leaves the marker, white space, and a text that does not begin with white space |
| PdfExport.ExportTestsExclusive | src/components/MarketingPlanDisplay.tsx:43-107 | the heading prefixes are pairwise exclusive, and so are the seven tests of the chain |
| PdfExport.ExportKinds | src/components/MarketingPlanDisplay.tsx:43-107 | each kind is chosen exactly when its own test holds; empty exactly for the empty trimmed line |
| PdfExport.HeadingText | src/components/MarketingPlanDisplay.tsx:45-68 | a heading's text is the line without its `#`s and all the white space after them |
| PdfExport.BulletText | src/components/MarketingPlanDisplay.tsx:77-84 | a bullet's text is the line without its marker and all the white space after it |
| PdfExport.KeptText | src/components/MarketingPlanDisplay.tsx:69-103 | a bold line loses every `**`; numbered lines and paragraphs keep the trimmed line verbatim |
| PdfExport.DrawBlock | src/components/MarketingPlanDisplay.tsx:45-107 | the drawing calls and the new cursor of one block are those of the layout function |
| PdfExport.PlaceLine | src/components/MarketingPlanDisplay.tsx:36-107 | one loop pass (break check, trim, classify, draw) equals one step of the layout function |
| PdfExport.LayoutPdf | src/components/MarketingPlanDisplay.tsx:33-108 | the loop over the split plan ends in the layout function's state for all the lines |
| PdfExport.BreakKeepsPlaced | src/components/MarketingPlanDisplay.tsx:38-41 | adding a page and returning the cursor to the margin keeps the placement invariant |
| PdfExport.DrawKeepsPlaced | src/components/MarketingPlanDisplay.tsx:45-106 | a call at a cursor above the threshold, followed by a move down, keeps the invariant |
| PdfExport.DrawKeepsPlacedBlock | src/components/MarketingPlanDisplay.tsx:45-107 | drawing any block at a cursor above the threshold keeps the invariant |
| PdfExport.DrawKeepsPlacedText | src/components/MarketingPlanDisplay.tsx:45-103 | drawing a block as one text run at a cursor above the threshold keeps the invariant |
| PdfExport.LayLineKeepsPlaced | src/components/MarketingPlanDisplay.tsx:36-107 | one loop pass keeps the invariant |
| PdfExport.LayoutWellPlaced | src/components/MarketingPlanDisplay.tsx:34-108 | for any plan and wrapper, on a page whose margin lies above the break threshold (page height at least 50), the cursor stays at or below the margin, the page count is one plus the page additions, every run and rule starts between the margin and the threshold, and calls on a page go strictly down it |
| PdfExport.DrawPlacement | src/components/MarketingPlanDisplay.tsx:45-107 | each kind's position, and the width and font it is wrapped with; bullets drawn after `• `; rules between the margins at the cursor; nothing for an empty line; drawing never adds a page |
| PdfExport.CursorAdvance | src/components/MarketingPlanDisplay.tsx:52-106 | the cursor advance of each kind for `k` pieces wrapped under its own font: 8k+5, 6k+4, 5k+3, 4k+2, 4k+1, 4k+1, 6, 4k+2, 3 |
| PdfExport.PagesAtMostLines | src/components/MarketingPlanDisplay.tsx:36-41 | at most one page is added per source line |
| PdfExport.LongParagraphOverflows | src/components/MarketingPlanDisplay.tsx:36-103 | for any wrapper, a plan of one paragraph line stays on one A4 page, and the cursor ends past the page's bottom exactly when the paragraph is wrapped into 69 pieces or more |
| PdfExport.ExportFilename | src/components/MarketingPlanDisplay.tsx:111-112 | `marketing-plan-<date>.pdf` (definition; `FilenameOfTimestamp` and `IsoFilename` state its value) |
| PdfExport.DatePart | src/components/MarketingPlanDisplay.tsx:111 | the date part is a prefix of the timestamp without `T`, followed by `T` unless it is the whole timestamp |
| PdfExport.FilenameOfTimestamp | src/components/MarketingPlanDisplay.tsx:111-112 | for `<date>T<time>` the file is `marketing-plan-<date>.pdf` |
| PdfExport.IsoFilename | src/components/MarketingPlanDisplay.tsx:111-112 | for an ISO timestamp the file is named after its first ten characters |
| PdfExport.PlanDisplay.constructor | src/components/MarketingPlanDisplay.tsx:10 | the display starts not downloading, with nothing saved and no error reported |
| PdfExport.PlanDisplay.HandleDownloadPdf | src/components/MarketingPlanDisplay.tsx:20-119 | without a plan (null or empty) nothing changes; otherwise, in order, the busy flag goes up, then either one error is reported and nothing is saved, or one file named after the date is saved with the layout's pages and calls, and then the flag goes down |
| ScreenFormat.FormatLine | src/components/MarketingPlanDisplay.tsx:125-186 | the screen's chain of tests on one raw line (definition; `ScreenKinds`, `ScreenHeadingText`, `ScreenKeptText` and `ScreenItemText` state its properties) |
| ScreenFormat.FormatMarkdownContent | src/components/MarketingPlanDisplay.tsx:121-188 | one node per line of `split('\n')`, each the line's own reading, in order |
| ScreenFormat.NodeCount | src/components/MarketingPlanDisplay.tsx:122-124 | the number of nodes is one more than the number of line breaks |
| ScreenFormat.BlankStartsWithWs | src/components/MarketingPlanDisplay.tsx:170 | a non-empty blank line begins with white space |
| ScreenFormat.ScreenTestsExclusive | src/components/MarketingPlanDisplay.tsx:125-186 | the screen's prefix tests are pairwise exclusive and a blank line passes none |
| ScreenFormat.ScreenKinds | src/components/MarketingPlanDisplay.tsx:125-186 | each node kind is chosen exactly when its own test holds |
| ScreenFormat.ScreenHeadingText | src/components/MarketingPlanDisplay.tsx:125-151 | a heading is its prefix followed by its text |
| ScreenFormat.ScreenKeptText | src/components/MarketingPlanDisplay.tsx:152-186 | a bold line loses every `**`; a paragraph is the line verbatim |
| ScreenFormat.ScreenItemText | src/components/MarketingPlanDisplay.tsx:161-169 | an item is a marker, exactly one space, then its text |
| Classifiers.TrimmedLinesAgree | src/components/MarketingPlanDisplay.tsx:43-186 | on a line that is its own trim the kinds correspond one to one, numbered items and paragraphs both being paragraphs on screen, with the same text for bold lines and paragraphs |
| Classifiers.H1TextsAgree | src/components/MarketingPlanDisplay.tsx:45-131 | with one space after `#` both readings give the same heading text |
| Classifiers.H2TextsAgree | src/components/MarketingPlanDisplay.tsx:53-140 | with one space after `##` both readings give the same heading text |
| Classifiers.H3TextsAgree | src/components/MarketingPlanDisplay.tsx:61-149 | with one space after `###` both readings give the same heading text |
| Classifiers.BulletTextsAgree | src/components/MarketingPlanDisplay.tsx:77-167 | with one space after the marker both readings give the same bullet text |
| Classifiers.WideBulletDiverges | src/components/MarketingPlanDisplay.tsx:77-167 | with several spaces after the marker the two bullet texts differ |
| Classifiers.IndentedLineOnScreen | src/components/MarketingPlanDisplay.tsx:125-186 | an indented line is a line break when blank and a verbatim paragraph otherwise |
| Classifiers.IndentedHeadingDiverges | src/components/MarketingPlanDisplay.tsx:43-131 | a heading indented by one space is a heading in the PDF and a paragraph on screen |
| PlanForm.PlanLines | src/components/MarketingPlanForm.tsx:28-187 | the template's lines: sixteen sections and the sign-off (definition; the plan lemmas below state its content) |
| PlanForm.GenerateMockMarketingPlan | src/components/MarketingPlanForm.tsx:28-187 | the template's lines joined by newlines (definition; `PlanStartsWithTitle`, `PlanHoldsFieldText` and `PlanClosing` state its content) |
| PlanForm.PlanStartsWithTitle | src/components/MarketingPlanForm.tsx:29 | the plan starts with `# 7-Day Marketing Plan for <name>` and a line break |
| PlanForm.PlanFirstLine | src/components/MarketingPlanForm.tsx:29 | for a one-line name, the first line of the plan is the title |
| PlanForm.SectionLinesInPlan | src/components/MarketingPlanForm.tsx:28-187 | an unbroken run of a section's lines reappears as consecutive lines of the plan |
| PlanForm.PlanListsFields | src/components/MarketingPlanForm.tsx:35-39 | when no field holds a line break, the five labelled field lines appear as consecutive lines of the plan, in the form's order |
| PlanForm.SectionTextInPlan | src/components/MarketingPlanForm.tsx:28-187 | any run of a section's inner lines, joined by newlines, is a piece of the plan text, just after the lines before it |
| PlanForm.PlanHoldsFieldText | src/components/MarketingPlanForm.tsx:35-39 | whatever the fields hold, line breaks included, the five labelled field lines joined by newlines are a piece of the plan text |
| PlanForm.SignOffUnbroken | src/components/MarketingPlanForm.tsx:185-187 | the last three template lines hold no line break |
| PlanForm.PlanClosing | src/components/MarketingPlanForm.tsx:185-187 | whatever the fields, the plan's last three lines are `---`, a blank line and the signature |
| PlanForm.SubmitWith | src/components/MarketingPlanForm.tsx:13-24 | one submission that generates a given plan (definition; `SubmitEffect` states its effect) |
| PlanForm.Submitted | src/components/MarketingPlanForm.tsx:13-24 | one submission of the form as it stands (definition; `Form.HandleSubmit` ends in it) |
| PlanForm.IsDisabled | src/components/MarketingPlanForm.tsx:190 | the form is off from two uses on (definition; `SubmitEffect` ties it to the gate) |
| PlanForm.SubmitDisabled | src/components/MarketingPlanForm.tsx:318 | the button is off while generating or when the form is off (definition; `ButtonMatchesGate` ties it to the gate) |
| PlanForm.SubmitEffect | src/components/MarketingPlanForm.tsx:13-24 | a submission changes the store exactly when the count is below two, and then stores the plan, adds one use and leaves theme and form alone |
| PlanForm.ButtonMatchesGate | src/components/MarketingPlanForm.tsx:318 | a submission through an enabled button counts one use; when not generating, the button is off exactly when a submission would change nothing |
| PlanForm.SubmissionsSaturate | src/components/MarketingPlanForm.tsx:13-24 | from a count at most two, submissions raise the count to at most two and no further, leaving theme and form alone |
| PlanForm.Form.constructor | src/components/MarketingPlanForm.tsx:8 | the form starts not generating |
| PlanForm.Form.HandleSubmit | src/components/MarketingPlanForm.tsx:10-26 | the store ends as one submission of the current fields leaves it; when refused the flag and the log are untouched, otherwise, in order, the flag goes up, the plan generated from the fields is stored, one use is counted and the flag goes down |

## Left out

- Fonts, font sizes beyond the recorded style, colours and the PDF library's
  own drawing are not modelled. The calls are recorded as events.
- The text wrapping of `splitTextToSize` depends on floating-point font
  metrics. It is a parameter of the model.
- The real page size is not modelled. The library reports it as
  floating-point numbers; the model takes whole millimetres as parameters.
- `new Date().toISOString()` is the clock, so the timestamp is a parameter.
- Whether the PDF library throws is the boolean parameter `fails`.
  `console.error` and `alert` are folded into an error counter. Saving
  the file is recorded as a list entry.
- `handleCopy` is not modelled, because it is clipboard I/O. Neither is its
  `copied` flag, because it is a timer-driven UI state.
- The 3-second simulated delay in `handleSubmit` is not modelled, and
  neither are interleavings of asynchronous handlers. Each handler runs to
  completion.
- `persist` and localStorage serialisation are not part of this model.
- React rendering, JSX, class names, dark-mode colours and animations are
  not modelled: the screen formatter yields node kinds and texts, not
  elements.
- UsageLimitToast.tsx, Hero.tsx, Header.tsx and App.tsx are not part of
  this model. They are presentation and browser I/O. The toast's only state
  effect is `resetUsage`, which the store covers.
- `updateFormData` with a key present but set to `undefined` is not
  modelled. A patch field is either absent (`None`) or a string.
- Strings are sequences of Unicode code points, not UTF-16 units, so a
  character outside the BMP (the template's rocket emoji, or one typed into
  a field) has length 1 here and 2 in the source. No property depends on
  the unit: each states a prefix, suffix, infix or split of strings, or a
  bound between the lengths of a string and one derived from it, and holds
  under either count; every character the classifiers test is in the BMP.
- PlanForm.PlanListsFields: states that the five field lines appear as
  consecutive lines only when no field contains a line break, because a line
  break in a field splits that line. PlanForm.PlanHoldsFieldText states the
  same of the plan text for any fields.
- PlanForm.ButtonMatchesGate: says nothing about what a click does while a
  plan is being generated. The button is then off, and the model does not
  interleave handlers.
