/** The on-screen rendering of the plan (`formatMarkdownContent`): every raw
    line, untrimmed, becomes one display node. Its chain of tests differs from
    the export's: no numbered items, a blank test before the rule test, and
    bullets that drop exactly one space after the marker. */
module ScreenFormat {
  import opened Text

  /** The element drawn for one line. */
  datatype Node =
    | Heading1(text: string)
    | Heading2(text: string)
    | Heading3(text: string)
    | Strong(text: string)
    | Item(text: string)
    | Break
    | Ruler
    | Para(text: string)

  predicate IsScreenBullet(line: string) {
    StartsWith(line, "• ") || StartsWith(line, "* ") || StartsWith(line, "- ")
  }

  predicate IsBlank(line: string) {
    Trim(line) == []
  }

  /** The chain of tests applied to one raw line. A heading's prefix is the
      first occurrence of `# `, `## ` or `### ` in a line that starts with it,
      so replacing it removes exactly the prefix; a bold line loses every
      `**`; a bullet drops its marker and the one space after it; anything
      else is shown verbatim. */
  function FormatLine(line: string): Node {
    if StartsWith(line, "# ") then Heading1(line[2..])
    else if StartsWith(line, "## ") then Heading2(line[3..])
    else if StartsWith(line, "### ") then Heading3(line[4..])
    else if StartsWith(line, "**") && EndsWith(line, "**") then Strong(RemoveDoubleStars(line))
    else if IsScreenBullet(line) then Item(line[2..])
    else if IsBlank(line) then Break
    else if StartsWith(line, "---") then Ruler
    else Para(line)
  }

  /** One node per line of the content, in order. */
  function FormatMarkdownContent(content: string): (nodes: seq<Node>)
    ensures |nodes| == |Split(content, '\n')|
    ensures forall i :: 0 <= i < |nodes| ==> nodes[i] == FormatLine(Split(content, '\n')[i])
  {
    var lines := Split(content, '\n');
    seq(|lines|, i requires 0 <= i < |lines| => FormatLine(lines[i]))
  }

  /** The screen shows one node more than the content has line breaks. */
  lemma NodeCount(content: string)
    ensures |FormatMarkdownContent(content)| == 1 + Count(content, '\n')
  {
    SplitCount(content, '\n');
  }

  /** A blank line starts with white space or is empty, so it passes none of
      the prefix tests. */
  lemma BlankStartsWithWs(line: string)
    requires IsBlank(line) && line != []
    ensures IsWs(line[0])
  {
    TrimIsInfix(line);
    var i :| 0 <= i <= |line| && [] == line[i..i] && AllWs(line[..i]) && AllWs(line[i..]);
    if i == 0 {
      assert line[i..][0] == line[0];
    } else {
      assert line[..i][0] == line[0];
    }
  }

  /** The screen's tests are pairwise exclusive: a line is told apart by its
      first three characters, and a blank line passes none of the prefix tests. */
  lemma ScreenTestsExclusive(line: string)
    ensures StartsWith(line, "# ") ==> !StartsWith(line, "## ") && !StartsWith(line, "### ")
    ensures StartsWith(line, "## ") ==> !StartsWith(line, "### ")
    ensures StartsWith(line, "**") ==> !StartsWith(line, "# ") && !StartsWith(line, "## ") && !StartsWith(line, "### ")
    ensures IsScreenBullet(line) ==>
              !StartsWith(line, "# ") && !StartsWith(line, "## ") && !StartsWith(line, "### ") && !StartsWith(line, "**")
    ensures StartsWith(line, "---") ==>
              && !StartsWith(line, "# ") && !StartsWith(line, "## ") && !StartsWith(line, "### ")
              && !StartsWith(line, "**") && !IsScreenBullet(line)
    ensures IsBlank(line) ==>
              && !StartsWith(line, "# ") && !StartsWith(line, "## ") && !StartsWith(line, "### ")
              && !StartsWith(line, "**") && !IsScreenBullet(line) && !StartsWith(line, "---")
  {
    LeadingChars(line, "# ");
    LeadingChars(line, "## ");
    LeadingChars(line, "### ");
    LeadingChars(line, "**");
    LeadingChars(line, "• ");
    LeadingChars(line, "* ");
    LeadingChars(line, "- ");
    LeadingChars(line, "---");
    if IsBlank(line) && line != [] {
      BlankStartsWithWs(line);
    }
  }

  /** Since the tests are exclusive, each kind of node is chosen exactly when
      its own test holds. */
  lemma ScreenKinds(line: string)
    ensures FormatLine(line).Heading1? <==> StartsWith(line, "# ")
    ensures FormatLine(line).Heading2? <==> StartsWith(line, "## ")
    ensures FormatLine(line).Heading3? <==> StartsWith(line, "### ")
    ensures FormatLine(line).Strong? <==> StartsWith(line, "**") && EndsWith(line, "**")
    ensures FormatLine(line).Item? <==> IsScreenBullet(line)
    ensures FormatLine(line).Break? <==> IsBlank(line)
    ensures FormatLine(line).Ruler? <==> StartsWith(line, "---")
    ensures FormatLine(line).Para? <==>
              && !StartsWith(line, "# ") && !StartsWith(line, "## ") && !StartsWith(line, "### ")
              && !(StartsWith(line, "**") && EndsWith(line, "**")) && !IsScreenBullet(line)
              && !IsBlank(line) && !StartsWith(line, "---")
  {
    ScreenTestsExclusive(line);
  }

  /** A heading is its prefix followed by its text. */
  lemma ScreenHeadingText(line: string)
    ensures FormatLine(line).Heading1? ==> line == "# " + FormatLine(line).text
    ensures FormatLine(line).Heading2? ==> line == "## " + FormatLine(line).text
    ensures FormatLine(line).Heading3? ==> line == "### " + FormatLine(line).text
  {
    if StartsWith(line, "# ") {
      assert line == line[..2] + line[2..];
    } else if StartsWith(line, "## ") {
      assert line == line[..3] + line[3..];
    } else if StartsWith(line, "### ") {
      assert line == line[..4] + line[4..];
    }
  }

  /** A bold line loses every `**`; a paragraph is the line verbatim. */
  lemma ScreenKeptText(line: string)
    ensures FormatLine(line).Strong? ==> FormatLine(line).text == RemoveDoubleStars(line)
    ensures FormatLine(line).Para? ==> FormatLine(line).text == line
  {
  }

  /** A bullet item is a marker, one space, then its text. */
  lemma ScreenItemText(line: string)
    ensures FormatLine(line).Item? ==> line[0] in "•*-" && line == [line[0], ' '] + FormatLine(line).text
  {
    if FormatLine(line).Item? {
      assert IsScreenBullet(line);
      LeadingChars(line, "• ");
      LeadingChars(line, "* ");
      LeadingChars(line, "- ");
      assert line == line[..2] + line[2..];
    }
  }
}
