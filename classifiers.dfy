/** The export and the screen read the same plan with two different chains of
    tests. On lines without surrounding white space they agree on every kind
    except numbered items, which the screen shows as paragraphs; they disagree
    on lines with leading white space and on markers followed by more than one
    space. */
module Classifiers {
  import opened Text
  import opened PdfExport
  import opened ScreenFormat

  /** On a line that is its own trim, each export kind matches one screen
      kind: an empty line is a line break, and numbered items and paragraphs
      are both shown verbatim as paragraphs. Bold lines keep the same text. */
  lemma TrimmedLinesAgree(l: string)
    requires Trim(l) == l
    ensures ClassifyExport(l).H1? <==> FormatLine(l).Heading1?
    ensures ClassifyExport(l).H2? <==> FormatLine(l).Heading2?
    ensures ClassifyExport(l).H3? <==> FormatLine(l).Heading3?
    ensures ClassifyExport(l).Bold? <==> FormatLine(l).Strong?
    ensures ClassifyExport(l).Bullet? <==> FormatLine(l).Item?
    ensures ClassifyExport(l).Rule? <==> FormatLine(l).Ruler?
    ensures ClassifyExport(l).Empty? <==> FormatLine(l).Break?
    ensures ClassifyExport(l).Numbered? || ClassifyExport(l).Paragraph? <==> FormatLine(l).Para?
    ensures ClassifyExport(l).Bold? ==> ClassifyExport(l).text == FormatLine(l).text
    ensures ClassifyExport(l).Numbered? || ClassifyExport(l).Paragraph? ==> ClassifyExport(l).text == FormatLine(l).text
  {
    ExportKinds(l);
    ScreenKinds(l);
    KeptText(l);
  }

  /** Skipping one white-space character before a non-white-space one is all
      that stripping leading white space does. */
  lemma StripOneSpace(s: string)
    requires |s| >= 2 && IsWs(s[0]) && !IsWs(s[1])
    ensures StripLeadingWs(s) == s[1..]
  {
    assert s[1..][0] == s[1];
  }

  /** With exactly one space between `#` and the text, a heading keeps the
      same text in both readings. */
  lemma H1TextsAgree(l: string)
    requires StartsWith(l, "# ") && |l| > 2 && !IsWs(l[2])
    ensures ClassifyExport(l) == H1(l[2..]) && FormatLine(l) == Heading1(l[2..])
  {
    StripOneSpace(l[1..]);
    assert l[1..][1..] == l[2..];
  }

  /** The same for `##`. */
  lemma H2TextsAgree(l: string)
    requires StartsWith(l, "## ") && |l| > 3 && !IsWs(l[3])
    ensures ClassifyExport(l) == H2(l[3..]) && FormatLine(l) == Heading2(l[3..])
  {
    LeadingChars(l, "# ");
    LeadingChars(l, "## ");
    StripOneSpace(l[2..]);
    assert l[2..][1..] == l[3..];
  }

  /** The same for `###`. */
  lemma H3TextsAgree(l: string)
    requires StartsWith(l, "### ") && |l| > 4 && !IsWs(l[4])
    ensures ClassifyExport(l) == H3(l[4..]) && FormatLine(l) == Heading3(l[4..])
  {
    LeadingChars(l, "# ");
    LeadingChars(l, "## ");
    LeadingChars(l, "### ");
    StripOneSpace(l[3..]);
    assert l[3..][1..] == l[4..];
  }

  /** With exactly one space after the marker, a bullet keeps the same text
      in both readings (the PDF then draws it after `• `). */
  lemma BulletTextsAgree(l: string)
    requires IsBulletLine(l) && |l| > 2 && !IsWs(l[2])
    ensures ClassifyExport(l) == Bullet(l[2..]) && FormatLine(l) == Item(l[2..])
  {
    ExportTestsExclusive(l);
    LeadingChars(l, "• ");
    LeadingChars(l, "* ");
    LeadingChars(l, "- ");
    assert ClassifyExport(l) == Bullet(StripLeadingWs(l[1..]));
    assert StripLeadingWs(l[1..]) == l[2..] by {
      StripOneSpace(l[1..]);
      assert l[1..][1..] == l[2..];
    }
    assert FormatLine(l) == Item(l[2..]) by {
      ScreenKinds(l);
    }
  }

  /** With more than one space after the marker the readings part: the PDF
      drops all of it, the screen keeps all but the first. */
  lemma WideBulletDiverges(l: string)
    requires IsBulletLine(l) && |l| > 2 && IsWs(l[2])
    ensures ClassifyExport(l).Bullet? && FormatLine(l).Item?
    ensures ClassifyExport(l).text != FormatLine(l).text
  {
    ExportTestsExclusive(l);
    ScreenKinds(l);
    BulletText(l);
    assert l[2..][0] == l[2];
  }

  /** A line that begins with white space is never a heading, bold line,
      bullet or rule on screen: it is a line break when blank and a paragraph
      otherwise. */
  lemma IndentedLineOnScreen(l: string)
    requires l != [] && IsWs(l[0])
    ensures FormatLine(l) == if IsBlank(l) then Break else Para(l)
  {
    LeadingChars(l, "# ");
    LeadingChars(l, "## ");
    LeadingChars(l, "### ");
    LeadingChars(l, "**");
    LeadingChars(l, "• ");
    LeadingChars(l, "* ");
    LeadingChars(l, "- ");
    LeadingChars(l, "---");
  }

  /** The export trims before its tests and the screen does not: a heading
      indented by one space is a heading in the PDF and a paragraph on screen. */
  lemma IndentedHeadingDiverges(h: string)
    requires StartsWith(h, "# ") && !IsWs(h[|h| - 1])
    ensures ClassifyExport(Trim([' '] + h)).H1?
    ensures FormatLine([' '] + h) == Para([' '] + h)
  {
    var l := [' '] + h;
    LeadingChars(h, "# ");
    assert l[1..] == h;
    assert StripLeadingWs(l) == h;
    assert StripTrailingWs(h) == h;
    IndentedLineOnScreen(l);
  }
}
