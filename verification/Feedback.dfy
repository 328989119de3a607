/** Building the feedback comment of a scan: each engine's results into its own sorted table under its own title. */
module Feedback {
  import opened Options
  import opened Text
  import opened Severities
  import opened DetailRows
  import opened Decoration
  import opened Summary

  /** One result of the report: its state, its severity and the fields of its row. */
  datatype Result = Result(state: string, severity: Label, fields: Fields)

  datatype Report = Report(sast: seq<Result>, resolved: seq<Result>, sca: seq<Result>, iac: seq<Result>)

  function FindingOf(r: Result, parse: string -> Option<int>): Finding
  {
    var row := RowFor(Info, r.fields, parse);
    Finding(r.state, r.severity, row.cells, row.order)
  }

  function Findings(rs: seq<Result>, parse: string -> Option<int>): (fs: seq<Finding>)
    ensures |fs| == |rs|
  {
    seq(|rs|, i requires 0 <= i < |rs| => FindingOf(rs[i], parse))
  }

  /** A finding has its result's state and severity, and becomes the row of its result's fields. */
  lemma FindingsSpelled(rs: seq<Result>, parse: string -> Option<int>, i: nat, s: Severity)
    requires i < |rs|
    ensures var f := Findings(rs, parse)[i];
      && f.state == rs[i].state && f.severity == rs[i].severity
      && DetailRow(s, f.cells, f.order) == RowFor(s, rs[i].fields, parse)
  {
    match rs[i].fields
    case SastFields(a, b, c, d) =>
    case ScaFields(a, b, c, d, e) =>
    case IacFields(a, b, c, d, e) =>
    case ResolvedFields(a, b, c) =>
  }

  /** A decoration with a table added: an empty one leaves no title. */
  function WithTable(c: Content, t: Table, rows: seq<DetailRow>, section: Table -> seq<Item>): Content
  {
    if rows == [] then c
    else c.(rows := c.rows[t := Added(rows)], details := c.details + section(t))
  }

  /** Adding a row to a table that has one keeps the details; the first row comes after the title. */
  lemma TableGrows(base: Content, t: Table, rows: seq<DetailRow>, row: DetailRow, after: Content,
                   section: Table -> seq<Item>)
    requires t !in base.rows && t in after.rows && after.rows[t] == Added(rows + [row])
    requires var titled :=
        if rows == [] then base.(details := base.details + section(t)) else WithTable(base, t, rows, section);
      after == titled.(rows := titled.rows[t := after.rows[t]])
    ensures after == WithTable(base, t, rows + [row], section)
  {
    if rows != [] {
      assert base.rows[t := Added(rows)][t := after.rows[t]] == base.rows[t := after.rows[t]];
    }
  }

  /** Adds a row, and the title before it if it is the first. */
  method AddTitled(d: PullRequestDecoration, t: Table, titled: bool, row: DetailRow, ghost base: Content,
                   ghost rows: seq<DetailRow>)
    requires t !in base.rows && d.content == WithTable(base, t, rows, DetailSection) && (titled <==> rows != [])
    modifies d
    ensures d.content == WithTable(base, t, rows + [row], DetailSection)
  {
    if !titled {
      d.StartDetailSection(t);
    }
    assert RowsIn(d.content, t) == Added(rows);
    d.AddDetail(t, row);
    TableGrows(base, t, rows, row, d.content, DetailSection);
  }

  /** One engine's detail loop: the title before the first row, the rows sorted, or a severity that raises. */
  method AddDetails(d: PullRequestDecoration, t: Table, fs: seq<Finding>, states: set<string>,
                    severities: set<Severity>)
    returns (raised: bool)
    requires t !in d.content.rows
    modifies d
    ensures raised <==> RowsOf(fs, states, severities).None?
    ensures !raised ==> d.content == WithTable(old(d.content), t, RowsOf(fs, states, severities).value, DetailSection)
    ensures !raised ==> d.content.rows.Keys <= old(d.content).rows.Keys + {t}
  {
    raised := false;
    var titled := false;
    ghost var rows := [];
    for i := 0 to |fs|
      invariant d.content == WithTable(old(d.content), t, rows, DetailSection)
      invariant RowsOf(fs[..i], states, severities) == Some(rows)
      invariant titled <==> rows != []
      invariant !raised
    {
      assert fs[..i + 1][..i] == fs[..i];
      if !Excluded(fs[i], states, severities) {
        match Lookup(fs[i].severity)
        case None =>
          RaiseStays(fs, i + 1, states, severities);
          return true;
        case Some(s) =>
          var row := DetailRow(s, fs[i].cells, fs[i].order);
          AddTitled(d, t, titled, row, old(d.content), rows);
          titled, rows := true, rows + [row];
      }
    }
    assert fs[..|fs|] == fs;
  }

  // ---- the summary table

  /** The severities shown, among the first `n` declared. */
  function IncludedFrom(excluded: set<Severity>, n: nat): seq<Severity>
    requires n <= |All|
  {
    if n == 0 then []
    else IncludedFrom(excluded, n - 1) + if All[n - 1] in excluded then [] else [All[n - 1]]
  }

  function Included(excluded: set<Severity>): seq<Severity>
  {
    IncludedFrom(excluded, |All|)
  }

  lemma {:induction false} IncludedMember(excluded: set<Severity>, n: nat, s: Severity)
    requires n <= |All|
    ensures s in IncludedFrom(excluded, n) <==> s !in excluded && Rank(s) < n
  {
    if n > 0 {
      IncludedMember(excluded, n - 1, s);
      RankOfAll(n - 1);
    }
  }

  function Titles(included: seq<Severity>): (r: seq<string>)
    ensures |r| == |included|
  {
    seq(|included|, i requires 0 <= i < |included| => Show(Values(included[i])[0]))
  }

  function Repeated(text: string, n: nat): string
  {
    if n == 0 then "" else text + Repeated(text, n - 1)
  }

  function SummaryHead(included: seq<Severity>): seq<string>
  {
    ["\n", "# Summary of Vulnerabilities", "\n", "| Engine | " + Cells(Titles(included)) + " |",
     "|--" + Repeated("| :-: ", |included|) + "|"]
  }

  /** One engine's cells: what the counting shows for each severity. */
  function EngineCells(fs: seq<Finding>, excluded: set<Severity>, included: seq<Severity>): (r: seq<string>)
    ensures |r| == |included| && forall i :: 0 <= i < |included| ==> r[i] == Shown(fs, excluded, included[i])
  {
    seq(|included|, i requires 0 <= i < |included| => Shown(fs, excluded, included[i]))
  }

  function EngineLine(engine: string, cells: seq<string>): string
  {
    "|" + engine + "|" + Join(cells, '|') + "|"
  }

  /** The findings a table is made from. */
  function TableFindings(r: Report, t: Table, parse: string -> Option<int>): seq<Finding>
  {
    match t
    case Sast => Findings(r.sast, parse)
    case Resolved => Findings(r.resolved, parse)
    case Sca => Findings(r.sca, parse)
    case Iac => Findings(r.iac, parse)
  }

  function TableLine(engine: string, r: Report, t: Table, excluded: set<Severity>, parse: string -> Option<int>): string
  {
    EngineLine(engine, EngineCells(TableFindings(r, t, parse), excluded, Included(excluded)))
  }

  function SummaryLines(r: Report, excluded: set<Severity>, parse: string -> Option<int>): seq<string>
  {
    SummaryHead(Included(excluded))
    + [TableLine("SAST", r, Sast, excluded, parse), TableLine("SCA", r, Sca, excluded, parse),
       TableLine("IaC", r, Iac, excluded, parse)]
  }

  /** The summary's lines: a head, then SAST, SCA and IaC, each from its own results. */
  lemma SummaryLinesSpelled(r: Report, excluded: set<Severity>, parse: string -> Option<int>)
    ensures var lines, shown := SummaryLines(r, excluded, parse), Included(excluded);
      && |lines| == 8 && lines[1] == "# Summary of Vulnerabilities"
      && lines[5] == "|" + "SAST" + "|" + Join(EngineCells(Findings(r.sast, parse), excluded, shown), '|') + "|"
      && lines[6] == "|" + "SCA" + "|" + Join(EngineCells(Findings(r.sca, parse), excluded, shown), '|') + "|"
      && lines[7] == "|" + "IaC" + "|" + Join(EngineCells(Findings(r.iac, parse), excluded, shown), '|') + "|"
  {
    var head := SummaryHead(Included(excluded));
    HeadSpelled(Included(excluded));
    Three(head, TableLine("SAST", r, Sast, excluded, parse), TableLine("SCA", r, Sca, excluded, parse),
          TableLine("IaC", r, Iac, excluded, parse));
  }

  lemma HeadSpelled(included: seq<Severity>)
    ensures |SummaryHead(included)| == 5 && SummaryHead(included)[1] == "# Summary of Vulnerabilities"
  {
  }

  lemma Three(head: seq<string>, a: string, b: string, c: string)
    ensures var all := head + [a, b, c];
      && |all| == |head| + 3 && all[|head|] == a && all[|head| + 1] == b && all[|head| + 2] == c
      && forall i :: 0 <= i < |head| ==> all[i] == head[i]
  {
  }

  /** The counts of one engine, one cell per severity shown. */
  method CountCells(fs: seq<Finding>, excluded: set<Severity>) returns (cells: seq<string>)
    ensures cells == EngineCells(fs, excluded, Included(excluded))
  {
    var counts := ResultCountMap(fs, excluded);
    cells := Listed(counts, Included(excluded));
  }

  method Listed(counts: map<Severity, string>, included: seq<Severity>) returns (cells: seq<string>)
    requires forall s: Severity :: s in counts
    ensures |cells| == |included| && forall k :: 0 <= k < |included| ==> cells[k] == counts[included[k]]
  {
    cells := [];
    for i := 0 to |included|
      invariant |cells| == i && forall k :: 0 <= k < i ==> cells[k] == counts[included[k]]
    {
      cells := cells + [counts[included[i]]];
    }
  }

  method SummaryText(r: Report, excluded: set<Severity>, parse: string -> Option<int>) returns (lines: seq<string>)
    ensures lines == SummaryLines(r, excluded, parse)
  {
    var sast := CountCells(TableFindings(r, Sast, parse), excluded);
    var sca := CountCells(TableFindings(r, Sca, parse), excluded);
    var iac := CountCells(TableFindings(r, Iac, parse), excluded);
    lines := SummaryHead(Included(excluded))
      + [EngineLine("SAST", sast), EngineLine("SCA", sca), EngineLine("IaC", iac)];
  }

  /**
   Summary and tables of one comment agree: with only "Not Exploitable" excluded, the cell of a severity shown is
   the number of its rows in that engine's table, for every severity the report spells one way as a text.
   */
  lemma CellIsRowCount(r: Report, t: Table, excluded: set<Severity>, parse: string -> Option<int>, i: nat)
    requires t != Resolved && TableRows(r, t, {NOT_EXPLOITABLE}, excluded, parse).Some? && i < |Included(excluded)|
    requires OneSpelling(TableFindings(r, t, parse), Included(excluded)[i])
    ensures EngineCells(TableFindings(r, t, parse), excluded, Included(excluded))[i]
         == Cell(RowsWith(Added(TableRows(r, t, {NOT_EXPLOITABLE}, excluded, parse).value), Included(excluded)[i]))
  {
    var s := Included(excluded)[i];
    IncludedMember(excluded, |All|, s);
    SummaryAgreesIff(TableFindings(r, t, parse), excluded, s);
  }

  // ---- the whole comment

  /** The rows of each table, if no severity raises. Resolved results are not filtered by state. */
  function TableRows(r: Report, t: Table, states: set<string>, severities: set<Severity>, parse: string -> Option<int>):
    Option<seq<DetailRow>>
  {
    RowsOf(TableFindings(r, t, parse), if t == Resolved then {} else states, severities)
  }

  /** The texts a table adds to the details: none at all if it has no rows. */
  function TableTexts(t: Table, rows: seq<DetailRow>): seq<string>
  {
    if rows == [] then [] else Headings(t) + [Rendered(Added(rows))]
  }

  lemma WithTableTexts(c: Content, t: Table, rows: seq<DetailRow>, final: Content)
    requires RowsIn(final, t) == Added(rows)
    ensures ItemTexts(final, WithTable(c, t, rows, DetailSection).details) ==
      ItemTexts(final, c.details) + TableTexts(t, rows)
  {
    if rows == [] {
      assert ItemTexts(final, c.details) + [] == ItemTexts(final, c.details);
    } else {
      ItemTextsConcat(final, c.details, DetailSection(t));
      SectionTexts(final, t);
    }
  }

  /** No table meets an unknown severity it does not exclude. */
  predicate Buildable(r: Report, states: set<string>, severities: set<Severity>, parse: string -> Option<int>)
  {
    && TableRows(r, Sast, states, severities, parse).Some?
    && TableRows(r, Resolved, states, severities, parse).Some?
    && TableRows(r, Sca, states, severities, parse).Some?
    && TableRows(r, Iac, states, severities, parse).Some?
  }

  function AllTables(c: Content, a: seq<DetailRow>, b: seq<DetailRow>, s: seq<DetailRow>, e: seq<DetailRow>,
                     section: Table -> seq<Item>): Content
  {
    var two := WithTable(WithTable(c, Sast, a, section), Resolved, b, section);
    WithTable(WithTable(two, Sca, s, section), Iac, e, section)
  }

  method AddTables(d: PullRequestDecoration, r: Report, states: set<string>, severities: set<Severity>,
                   parse: string -> Option<int>)
    returns (raised: bool)
    requires d.content.rows == map[]
    modifies d
    ensures raised <==> !Buildable(r, states, severities, parse)
    ensures !raised ==> d.content == AllTables(old(d.content),
      TableRows(r, Sast, states, severities, parse).value, TableRows(r, Resolved, states, severities, parse).value,
      TableRows(r, Sca, states, severities, parse).value, TableRows(r, Iac, states, severities, parse).value,
      DetailSection)
  {
    raised := AddDetails(d, Sast, TableFindings(r, Sast, parse), states, severities);
    if raised {
      return;
    }
    raised := AddDetails(d, Resolved, TableFindings(r, Resolved, parse), {}, severities);
    if raised {
      return;
    }
    raised := AddDetails(d, Sca, TableFindings(r, Sca, parse), states, severities);
    if raised {
      return;
    }
    raised := AddDetails(d, Iac, TableFindings(r, Iac, parse), states, severities);
  }

  /**
   PullRequestFeedback: raises exactly when some table meets an unknown severity it does not exclude. Otherwise
   the summary counts the same report, the details are the tables that have rows, in the order SAST, resolved,
   SCA, IaC, each under its headings and sorted, and both texts are recognised later.
   */
  method Build(header: string, scanLine: string, statusLine: string, r: Report,
               states: set<string>, severities: set<Severity>, parse: string -> Option<int>)
    returns (raised: bool, d: PullRequestDecoration)
    ensures raised <==> !Buildable(r, states, severities, parse)
    ensures !raised ==>
      ItemTexts(d.content, d.content.details) ==
        TableTexts(Sast, TableRows(r, Sast, states, severities, parse).value)
        + TableTexts(Resolved, TableRows(r, Resolved, states, severities, parse).value)
        + TableTexts(Sca, TableRows(r, Sca, states, severities, parse).value)
        + TableTexts(Iac, TableRows(r, Iac, states, severities, parse).value)
    // each table's rows, spelled out: resolved results are not filtered by their state
    ensures !raised ==>
      && RowsIn(d.content, Sast) == Added(RowsOf(Findings(r.sast, parse), states, severities).value)
      && RowsIn(d.content, Resolved) == Added(RowsOf(Findings(r.resolved, parse), {}, severities).value)
      && RowsIn(d.content, Sca) == Added(RowsOf(Findings(r.sca, parse), states, severities).value)
      && RowsIn(d.content, Iac) == Added(RowsOf(Findings(r.iac, parse), states, severities).value)
    ensures !raised ==> d.content.summary == SummaryLines(r, severities, parse)
    ensures !raised ==> MatchesIdentifier(FullContent(d.content)) && MatchesIdentifier(SummaryContent(d.content))
  {
    var summary := SummaryText(r, severities, parse);
    d := Begin(header, scanLine, statusLine, summary);
    ghost var base := d.content;
    raised := AddTables(d, r, states, severities, parse);
    if !raised {
      SelfRecognised(d.content);
      SummaryKept(base,
        TableRows(r, Sast, states, severities, parse).value, TableRows(r, Resolved, states, severities, parse).value,
        TableRows(r, Sca, states, severities, parse).value, TableRows(r, Iac, states, severities, parse).value,
        DetailSection);
      TablesKept(base,
        TableRows(r, Sast, states, severities, parse).value, TableRows(r, Resolved, states, severities, parse).value,
        TableRows(r, Sca, states, severities, parse).value, TableRows(r, Iac, states, severities, parse).value,
        DetailSection);
      FourTables(base, d.content,
        TableRows(r, Sast, states, severities, parse).value, TableRows(r, Resolved, states, severities, parse).value,
        TableRows(r, Sca, states, severities, parse).value, TableRows(r, Iac, states, severities, parse).value);
    }
  }

  method Begin(header: string, scanLine: string, statusLine: string, summary: seq<string>)
    returns (d: PullRequestDecoration)
    ensures fresh(d) && d.content == Content(header, [scanLine, statusLine], summary, [], map[])
  {
    d := new PullRequestDecoration(header);
    d.AddToAnnotation(scanLine);
    d.AddToAnnotation(statusLine);
    for i := 0 to |summary|
      invariant d.content == Content(header, [scanLine, statusLine], summary[..i], [], map[])
    {
      d.AddSummaryLine(summary[i]);
    }
    assert summary[..|summary|] == summary;
  }

  lemma SummaryKept(base: Content, a: seq<DetailRow>, b: seq<DetailRow>, c: seq<DetailRow>, e: seq<DetailRow>,
                    section: Table -> seq<Item>)
    ensures AllTables(base, a, b, c, e, section).summary == base.summary
  {
  }

  lemma FourTables(base: Content, final: Content, a: seq<DetailRow>, b: seq<DetailRow>, c: seq<DetailRow>,
                   e: seq<DetailRow>)
    requires base.details == [] && base.rows == map[]
    requires final == AllTables(base, a, b, c, e, DetailSection)
    ensures ItemTexts(final, final.details)
         == TableTexts(Sast, a) + TableTexts(Resolved, b) + TableTexts(Sca, c) + TableTexts(Iac, e)
  {
    var c1 := WithTable(base, Sast, a, DetailSection);
    var c2 := WithTable(c1, Resolved, b, DetailSection);
    var c3 := WithTable(c2, Sca, c, DetailSection);
    TablesKept(base, a, b, c, e, DetailSection);
    WithTableTexts(base, Sast, a, final);
    WithTableTexts(c1, Resolved, b, final);
    WithTableTexts(c2, Sca, c, final);
    WithTableTexts(c3, Iac, e, final);
    assert [] + TableTexts(Sast, a) == TableTexts(Sast, a);
  }

  lemma TableKept(c: Content, t: Table, rows: seq<DetailRow>, u: Table, section: Table -> seq<Item>)
    ensures RowsIn(WithTable(c, t, rows, section), u) == if u == t && rows != [] then Added(rows) else RowsIn(c, u)
  {
  }

  lemma TablesKept(base: Content, a: seq<DetailRow>, b: seq<DetailRow>, c: seq<DetailRow>, e: seq<DetailRow>,
                   section: Table -> seq<Item>)
    requires base.rows == map[]
    ensures var final := AllTables(base, a, b, c, e, section);
      && RowsIn(final, Sast) == Added(a) && RowsIn(final, Resolved) == Added(b)
      && RowsIn(final, Sca) == Added(c) && RowsIn(final, Iac) == Added(e)
  {
    var c1 := WithTable(base, Sast, a, section);
    var c2 := WithTable(c1, Resolved, b, section);
    var c3 := WithTable(c2, Sca, c, section);
    forall u: Table
      ensures RowsIn(AllTables(base, a, b, c, e, section), u)
           == Added(match u case Sast => a case Resolved => b case Sca => c case Iac => e)
    {
      TableKept(base, Sast, a, u, section);
      TableKept(c1, Resolved, b, u, section);
      TableKept(c2, Sca, c, u, section);
      TableKept(c3, Iac, e, u, section);
      assert RowsIn(base, u) == [] == Added([]);
    }
  }
}
