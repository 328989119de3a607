/**
 The text of a pull-request comment: sections in a fixed order, the first of them the marker by which the
 comment is recognised later.
 */
module Decoration {
  import opened Text
  import opened DetailRows
  import S = SortedLists

  const IDENTIFIER: string := "[//]:#cxoneflow"

  /** `matches_identifier`: the marker opens the text once its line breaks are gone. */
  predicate MatchesIdentifier(text: string)
  {
    IDENTIFIER <= Remove(text, '\n')
  }

  lemma MarkerSpelled(text: string)
    ensures MatchesIdentifier(text) <==> "[//]:#cxoneflow" <= Remove(text, '\n')
  {
  }

  datatype Section =
    | Identifier | HeaderBegin | HeaderEnd | AnnotationBegin | AnnotationEnd
    | SummaryBegin | SummaryEnd | DetailsBegin | DetailsEnd

  datatype Table = Sast | Sca | Iac | Resolved

  /** An element of the details: a line, or a table printed with the rows it has when the text is made. */
  datatype Item = Line(text: string) | Rows(table: Table)

  datatype Content = Content(
    header: string, annotation: seq<string>, summary: seq<string>, details: seq<Item>, rows: map<Table, seq<DetailRow>>)

  const SummarySections: seq<Section> :=
    [Identifier, HeaderBegin, HeaderEnd, AnnotationBegin, AnnotationEnd, SummaryBegin, SummaryEnd]

  const Sections: seq<Section> := SummarySections + [DetailsBegin, DetailsEnd]

  /** The rows of a table, none before the first is added. */
  function RowsIn(c: Content, t: Table): seq<DetailRow>
  {
    if t in c.rows then c.rows[t] else []
  }

  function ItemText(c: Content, item: Item): string
  {
    match item
    case Line(text) => text
    case Rows(t) => Rendered(RowsIn(c, t))
  }

  function ItemTexts(c: Content, items: seq<Item>): (r: seq<string>)
    ensures |r| == |items|
  {
    if items == [] then [] else [ItemText(c, items[0])] + ItemTexts(c, items[1..])
  }

  /** The elements of a section; an end marker has none. */
  function Elements(c: Content, section: Section): seq<string>
  {
    match section
    case Identifier => [IDENTIFIER]
    case HeaderBegin => [c.header]
    case AnnotationBegin => c.annotation
    case SummaryBegin => c.summary
    case DetailsBegin => ItemTexts(c, c.details)
    case HeaderEnd | AnnotationEnd | SummaryEnd | DetailsEnd => []
  }

  function Pieces(c: Content, sections: seq<Section>): seq<string>
  {
    if sections == [] then []
    else Pieces(c, sections[..|sections| - 1]) + (["\n"] + Elements(c, sections[|sections| - 1]))
  }

  function ContentText(c: Content, sections: seq<Section>): string
  {
    Join(Pieces(c, sections), '\n')
  }

  function SummaryContent(c: Content): string
  {
    ContentText(c, SummarySections)
  }

  function FullContent(c: Content): string
  {
    ContentText(c, Sections)
  }

  lemma PiecesSnoc(c: Content, sections: seq<Section>, section: Section)
    ensures Pieces(c, sections + [section]) == Pieces(c, sections) + (["\n"] + Elements(c, section))
  {
    assert (sections + [section])[..|sections|] == sections;
  }

  lemma PiecesSnocTwice(c: Content, sections: seq<Section>, x: Section, y: Section)
    ensures Pieces(c, sections + [x] + [y])
         == Pieces(c, sections) + (["\n"] + Elements(c, x)) + (["\n"] + Elements(c, y))
  {
    PiecesSnoc(c, sections, x);
    PiecesSnoc(c, sections + [x], y);
  }

  lemma FirstPiece(c: Content)
    ensures Pieces(c, [Identifier]) == ["\n", "[//]:#cxoneflow"]
  {
    assert [Identifier][..0] == [];
  }

  lemma HeaderPieces(c: Content)
    ensures Pieces(c, [Identifier, HeaderBegin, HeaderEnd])
         == ["\n", "[//]:#cxoneflow"] + ["\n", c.header] + ["\n"]
  {
    FirstPiece(c);
    PiecesSnocTwice(c, [Identifier], HeaderBegin, HeaderEnd);
    assert [Identifier] + [HeaderBegin] + [HeaderEnd] == [Identifier, HeaderBegin, HeaderEnd];
  }

  /** The summary text written out: marker, header, annotation and summary, each section behind a line break. */
  lemma SummarySpelled(c: Content)
    ensures SummaryContent(c)
         == Join(["\n", "[//]:#cxoneflow"] + ["\n", c.header] + ["\n"]
                 + (["\n"] + c.annotation) + ["\n"] + (["\n"] + c.summary) + ["\n"], '\n')
  {
    var h := [Identifier, HeaderBegin, HeaderEnd];
    HeaderPieces(c);
    PiecesSnoc(c, h, AnnotationBegin);
    PiecesSnoc(c, h + [AnnotationBegin], AnnotationEnd);
    PiecesSnoc(c, h + [AnnotationBegin] + [AnnotationEnd], SummaryBegin);
    PiecesSnoc(c, h + [AnnotationBegin] + [AnnotationEnd] + [SummaryBegin], SummaryEnd);
    assert SummarySections == h + [AnnotationBegin] + [AnnotationEnd] + [SummaryBegin] + [SummaryEnd];
    assert ["\n"] + [] == ["\n"];
  }

  // ---- every text is recognised

  lemma {:induction false} PiecesOpen(c: Content, sections: seq<Section>)
    requires sections != [] && sections[0] == Identifier
    ensures ["\n", IDENTIFIER] <= Pieces(c, sections)
  {
    if |sections| == 1 {
      assert sections[..0] == [];
    } else {
      PiecesOpen(c, sections[..|sections| - 1]);
    }
  }

  lemma MarkerSurvives(marker: string, rest: string)
    requires '\n' !in marker
    ensures marker <= Remove("\n\n" + marker + rest, '\n')
  {
    RemoveDistributes("\n\n" + marker, rest, '\n');
    RemoveDistributes("\n\n", marker, '\n');
    RemoveAbsent(marker, '\n');
    assert Remove("\n\n", '\n') == "" by {
      assert "\n\n"[1..] == "\n" && "\n"[1..] == "";
    }
  }

  lemma Opening(rest: string)
    ensures MatchesIdentifier("\n\n" + IDENTIFIER + rest)
  {
    MarkerSurvives(IDENTIFIER, rest);
  }

  /** Any text that opens with the identifier section is recognised, whatever the sections hold. */
  lemma TextMatches(c: Content, sections: seq<Section>)
    requires sections != [] && sections[0] == Identifier
    ensures MatchesIdentifier(ContentText(c, sections))
  {
    PiecesOpen(c, sections);
    var head: seq<string> := ["\n", IDENTIFIER];
    var pieces := Pieces(c, sections);
    assert Join(head, '\n') == "\n\n" + IDENTIFIER by {
      assert head[1..] == [IDENTIFIER];
    }
    assert pieces == head + pieces[2..];
    if pieces[2..] == [] {
      assert pieces == head;
      Opening("");
      assert Join(pieces, '\n') == "\n\n" + IDENTIFIER + "";
    } else {
      JoinConcat(head, pieces[2..], '\n');
      Opening("\n" + Join(pieces[2..], '\n'));
      assert Join(pieces, '\n') == "\n\n" + IDENTIFIER + ("\n" + Join(pieces[2..], '\n'));
    }
  }

  /** So both texts of every decoration are. */
  lemma SelfRecognised(c: Content)
    ensures MatchesIdentifier(FullContent(c)) && MatchesIdentifier(SummaryContent(c))
  {
    TextMatches(c, Sections);
    TextMatches(c, SummarySections);
  }

  // ---- the summary is the beginning of the full text

  /** What the full text adds. */
  function DetailsText(c: Content): string
  {
    Join(["\n"] + ItemTexts(c, c.details) + ["\n"], '\n')
  }

  /** The full text is the summary, a line break and the details; so the summary's lines are its first lines. */
  lemma SummaryIsPrefix(c: Content)
    ensures FullContent(c) == SummaryContent(c) + "\n" + DetailsText(c)
    ensures Split(FullContent(c), '\n') == Split(SummaryContent(c), '\n') + Split(DetailsText(c), '\n')
  {
    var front := SummarySections + [DetailsBegin];
    assert Sections[..|Sections| - 1] == front && front[..|front| - 1] == SummarySections;
    var extra := ["\n"] + ItemTexts(c, c.details) + ["\n"];
    assert Pieces(c, Sections) == Pieces(c, SummarySections) + extra by {
      assert Pieces(c, Sections) == Pieces(c, front) + (["\n"] + []);
      assert Pieces(c, front) == Pieces(c, SummarySections) + (["\n"] + ItemTexts(c, c.details));
    }
    PiecesOpen(c, SummarySections);
    JoinConcat(Pieces(c, SummarySections), extra, '\n');
    SplitAtSeparator(SummaryContent(c), DetailsText(c), '\n');
  }

  // ---- the object

  function Headings(t: Table): seq<string>
  {
    match t
    case Sast => ["\n", "# SAST Results", "| Severity | Issue | Source | Checkmarx Insight |", "| :-: | - | - | - |"]
    case Sca => ["\n", "# SCA Results", "\n", "| Severity | CVE | Package | Checkmarx Insight |", "| :-: | - | - | - |"]
    case Iac => ["\n", "# IAC Results", "\n", "| Severity | Technology | Source | Query | Checkmarx Insight |",
                 "| :-: | - | - | - | - |"]
    case Resolved => ["\n", "# Resolved SAST Results", "\n", "| Severity | Name | Checkmarx Insight |",
                      "| :-: | - | - |"]
  }

  lemma SastHeadings()
    ensures Headings(Sast)[1..]
         == ["# SAST Results", "| Severity | Issue | Source | Checkmarx Insight |", "| :-: | - | - | - |"]
  {
  }

  lemma ScaHeadings()
    ensures Headings(Sca)[1..]
         == ["# SCA Results", "\n", "| Severity | CVE | Package | Checkmarx Insight |", "| :-: | - | - | - |"]
  {
  }

  lemma IacHeadings()
    ensures Headings(Iac)[1..]
         == ["# IAC Results", "\n", "| Severity | Technology | Source | Query | Checkmarx Insight |",
             "| :-: | - | - | - | - |"]
  {
  }

  lemma ResolvedHeadings()
    ensures Headings(Resolved)[1..]
         == ["# Resolved SAST Results", "\n", "| Severity | Name | Checkmarx Insight |", "| :-: | - | - |"]
  {
  }

  /** Each table's own title, columns and alignment. */
  lemma HeadingsSpelled()
    ensures Headings(Sast)[1..]
         == ["# SAST Results", "| Severity | Issue | Source | Checkmarx Insight |", "| :-: | - | - | - |"]
    ensures Headings(Sca)[1..]
         == ["# SCA Results", "\n", "| Severity | CVE | Package | Checkmarx Insight |", "| :-: | - | - | - |"]
    ensures Headings(Iac)[1..]
         == ["# IAC Results", "\n", "| Severity | Technology | Source | Query | Checkmarx Insight |",
             "| :-: | - | - | - | - |"]
    ensures Headings(Resolved)[1..]
         == ["# Resolved SAST Results", "\n", "| Severity | Name | Checkmarx Insight |", "| :-: | - | - |"]
  {
    SastHeadings();
    ScaHeadings();
    IacHeadings();
    ResolvedHeadings();
  }

  function AsLines(ws: seq<string>): (r: seq<Item>)
    ensures |r| == |ws| && forall i :: 0 <= i < |ws| ==> r[i] == Line(ws[i])
  {
    seq(|ws|, i requires 0 <= i < |ws| => Line(ws[i]))
  }

  function DetailSection(t: Table): seq<Item>
  {
    AsLines(Headings(t)) + [Rows(t)]
  }

  lemma {:induction false} ItemTextsConcat(c: Content, a: seq<Item>, b: seq<Item>)
    ensures ItemTexts(c, a + b) == ItemTexts(c, a) + ItemTexts(c, b)
  {
    if a == [] {
      assert a + b == b;
    } else {
      ItemTextsConcat(c, a[1..], b);
      assert (a + b)[1..] == a[1..] + b;
    }
  }

  lemma {:induction false} LineTexts(c: Content, ws: seq<string>)
    ensures ItemTexts(c, AsLines(ws)) == ws
  {
    if ws != [] {
      LineTexts(c, ws[1..]);
      assert AsLines(ws)[1..] == AsLines(ws[1..]);
    }
  }

  lemma SectionTexts(c: Content, t: Table)
    ensures ItemTexts(c, DetailSection(t)) == Headings(t) + [Rendered(RowsIn(c, t))]
  {
    ItemTextsConcat(c, AsLines(Headings(t)), [Rows(t)]);
    LineTexts(c, Headings(t));
    assert [Rows(t)][1..] == [];
  }

  lemma {:induction false} SummaryIgnoresDetails(c: Content, d: Content, sections: seq<Section>)
    requires d == c.(details := d.details, rows := d.rows)
    requires forall i :: 0 <= i < |sections| ==> sections[i] != DetailsBegin
    ensures Pieces(c, sections) == Pieces(d, sections)
  {
    if sections != [] {
      SummaryIgnoresDetails(c, d, sections[..|sections| - 1]);
      assert Elements(c, sections[|sections| - 1]) == Elements(d, sections[|sections| - 1]);
    }
  }

  /**
   What starting a table's section adds: the text gains the headings and the table as it is when the text is
   made, so rows added later are shown too; the summary does not change.
   */
  lemma SectionShown(c: Content, t: Table, later: Content)
    requires later == c.(details := c.details + DetailSection(t), rows := later.rows)
    ensures ItemTexts(later, later.details)
         == ItemTexts(later, c.details) + (Headings(t) + [Rendered(RowsIn(later, t))])
    ensures SummaryContent(later) == SummaryContent(c)
  {
    ItemTextsConcat(later, c.details, DetailSection(t));
    SectionTexts(later, t);
    SummaryIgnoresDetails(c, later, SummarySections);
  }

  class PullRequestDecoration {
    var content: Content

    constructor (header: string)
      ensures content == Content(header, [], [], [], map[])
    {
      content := Content(header, [], [], [], map[]);
    }

    method AddToAnnotation(line: string)
      modifies this
      ensures content == old(content).(annotation := old(content).annotation + [line])
    {
      content := content.(annotation := content.annotation + [line]);
    }

    /** A row is added to the sorted rows of its table, and nothing else changes. */
    method AddDetail(t: Table, r: DetailRow)
      modifies this
      ensures t in content.rows
      ensures forall earlier :: RowsIn(old(content), t) == Added(earlier) ==> content.rows[t] == Added(earlier + [r])
      ensures content == old(content).(rows := old(content).rows[t := content.rows[t]])
    {
      var had := RowsIn(content, t);
      forall earlier | had == Added(earlier) ensures S.Insert(had, r, Key) == Added(earlier + [r]) {
        AddedSnoc(earlier, r);
      }
      content := content.(rows := content.rows[t := S.Insert(had, r, Key)]);
    }

    method AddSummaryLine(line: string)
      modifies this
      ensures content == old(content).(summary := old(content).summary + [line])
    {
      content := content.(summary := content.summary + [line]);
    }

    /** Appends a table's headings one by one, then the table itself. */
    method StartDetailSection(t: Table)
      modifies this
      ensures content == old(content).(details := old(content).details + DetailSection(t))
    {
      AppendLines(Headings(t));
      content := content.(details := content.details + [Rows(t)]);
    }

    method AppendLines(ws: seq<string>)
      modifies this
      ensures content == old(content).(details := old(content).details + AsLines(ws))
    {
      for i := 0 to |ws|
        invariant content == old(content).(details := old(content).details + AsLines(ws[..i]))
      {
        assert AsLines(ws[..i + 1]) == AsLines(ws[..i]) + [Line(ws[i])];
        content := content.(details := content.details + [Line(ws[i])]);
      }
      assert ws[..|ws|] == ws;
    }

    /** The loop over sections and their elements. */
    method GetContent(sections: seq<Section>) returns (text: string)
      ensures text == ContentText(content, sections)
    {
      var pieces: seq<string> := [];
      for i := 0 to |sections|
        invariant pieces == Pieces(content, sections[..i])
      {
        assert sections[..i + 1][..i] == sections[..i];
        pieces := pieces + ["\n"];
        var items := Elements(content, sections[i]);
        for j := 0 to |items|
          invariant pieces == Pieces(content, sections[..i]) + (["\n"] + items[..j])
        {
          pieces := pieces + [items[j]];
        }
        assert items[..|items|] == items;
      }
      assert sections[..|sections|] == sections;
      text := Join(pieces, '\n');
    }
  }
}
