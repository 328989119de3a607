/**
 The detail tables of a pull-request comment: rows kept sorted by a text key that starts with the padded
 severity rank, later rows after earlier ones with the same key.
 */
module DetailRows {
  import opened Options
  import opened Text
  import opened Lex
  import opened Severities
  import S = SortedLists
  import V = Versions

  /** The cells in header order, and the text that follows the rank in the sort key. */
  datatype DetailRow = DetailRow(severity: Severity, cells: seq<string>, order: string)

  /** What the four kinds of result carry for their table. */
  datatype Fields =
    | SastFields(image: string, issue: string, source: string, viewer: string)
    | ScaFields(image: string, cve: string, name: string, version: string, viewer: string)
    | IacFields(image: string, technology: string, source: string, query: string, viewer: string)
    | ResolvedFields(image: string, name: string, viewer: string)

  function ScaRow(s: Severity, image: string, cve: string, name: string, version: string, viewer: string,
                  parse: string -> Option<int>): DetailRow
  {
    DetailRow(s, [image, cve, name + ":" + version, viewer], name + V.Normalized(version, parse) + cve)
  }

  function RowFor(s: Severity, fields: Fields, parse: string -> Option<int>): DetailRow
  {
    match fields
    case SastFields(image, issue, source, viewer) => DetailRow(s, [image, issue, source, viewer], issue)
    case ScaFields(image, cve, name, version, viewer) => ScaRow(s, image, cve, name, version, viewer, parse)
    case IacFields(image, technology, source, query, viewer) =>
      DetailRow(s, [image, technology, source, query, viewer], technology)
    case ResolvedFields(image, name, viewer) => DetailRow(s, [image, name, viewer], name)
  }

  function Key(r: DetailRow): string
  {
    V.Padded(Rank(r.severity)) + r.order
  }

  function Cells(cells: seq<string>): string
  {
    if cells == [] then ""
    else if |cells| == 1 then cells[0]
    else cells[0] + " | " + Cells(cells[1..])
  }

  function Line(r: DetailRow): string
  {
    "| " + Cells(r.cells) + " |"
  }

  function Lines(rows: seq<DetailRow>): (r: seq<string>)
    ensures |r| == |rows|
    ensures forall i :: 0 <= i < |rows| ==> r[i] == Line(rows[i])
  {
    seq(|rows|, i requires 0 <= i < |rows| => Line(rows[i]))
  }

  function Rendered(rows: seq<DetailRow>): string
  {
    Join(Lines(rows), '\n')
  }

  // ---- the rows, written out

  lemma CellsSpelled(a: string, b: string, c: string)
    ensures Cells([a, b, c]) == a + " | " + b + " | " + c
  {
    assert [a, b, c][1..] == [b, c] && [b, c][1..] == [c];
    assert Cells([b, c]) == b + " | " + c;
  }

  lemma FourCells(a: string, b: string, c: string, d: string)
    ensures Cells([a, b, c, d]) == a + " | " + b + " | " + c + " | " + d
  {
    assert [a, b, c, d][1..] == [b, c, d];
    CellsSpelled(b, c, d);
  }

  lemma FiveCells(a: string, b: string, c: string, d: string, e: string)
    ensures Cells([a, b, c, d, e]) == a + " | " + b + " | " + c + " | " + d + " | " + e
  {
    assert [a, b, c, d, e][1..] == [b, c, d, e];
    FourCells(b, c, d, e);
  }

  /** A SAST row shows its cells in the order of the table's header, and is sorted by its issue. */
  lemma SastRowSpelled(s: Severity, image: string, issue: string, source: string, viewer: string,
                       parse: string -> Option<int>)
    ensures var r := RowFor(s, SastFields(image, issue, source, viewer), parse);
      && r.severity == s && r.order == issue
      && Line(r) == "| " + (image + " | " + issue + " | " + source + " | " + viewer) + " |"
  {
    FourCells(image, issue, source, viewer);
  }

  /** An SCA row shows package and version together, and is sorted by package, normal form and CVE. */
  lemma ScaRowSpelled(s: Severity, image: string, cve: string, name: string, version: string, viewer: string,
                      parse: string -> Option<int>)
    ensures var r := RowFor(s, ScaFields(image, cve, name, version, viewer), parse);
      && r.severity == s && r.order == name + V.Normalized(version, parse) + cve
      && Line(r) == "| " + (image + " | " + cve + " | " + (name + ":" + version) + " | " + viewer) + " |"
  {
    FourCells(image, cve, name + ":" + version, viewer);
  }

  /** An IaC row is sorted by its technology. */
  lemma IacRowSpelled(s: Severity, image: string, technology: string, source: string, query: string, viewer: string,
                      parse: string -> Option<int>)
    ensures var r := RowFor(s, IacFields(image, technology, source, query, viewer), parse);
      && r.severity == s && r.order == technology
      && Line(r) == "| " + (image + " | " + technology + " | " + source + " | " + query + " | " + viewer) + " |"
  {
    FiveCells(image, technology, source, query, viewer);
  }

  /** A resolved row is sorted by its name. */
  lemma ResolvedRowSpelled(s: Severity, image: string, name: string, viewer: string, parse: string -> Option<int>)
    ensures var r := RowFor(s, ResolvedFields(image, name, viewer), parse);
      && r.severity == s && r.order == name
      && Line(r) == "| " + (image + " | " + name + " | " + viewer) + " |"
  {
    CellsSpelled(image, name, viewer);
  }

  // ---- what the key means

  /** The rank decides first; within one severity the rest of the key does. */
  lemma KeyOrder(r: DetailRow, t: DetailRow)
    ensures Leq(Key(r), Key(t))
       <==> Rank(r.severity) < Rank(t.severity) || (r.severity == t.severity && Leq(r.order, t.order))
  {
    var m, n := Rank(r.severity), Rank(t.severity);
    V.PaddedOrder(m, n);
    V.PaddedOrder(n, m);
    Prefixed(V.Padded(m), r.order, V.Padded(n), t.order);
    assert m == n <==> r.severity == t.severity;
  }

  /** The list after adding rows one by one. */
  function Added(rs: seq<DetailRow>): seq<DetailRow>
  {
    S.Added(rs, Key)
  }

  /** Whatever text the fields hold, rendered rows come with non-decreasing severity rank. */
  lemma RanksAscend(rs: seq<DetailRow>, i: nat, j: nat)
    requires i < j < |Added(rs)|
    ensures Rank(Added(rs)[i].severity) <= Rank(Added(rs)[j].severity)
  {
    S.AddedIsSorted(rs, Key);
    KeyOrder(Added(rs)[i], Added(rs)[j]);
  }

  /** Rendered rows are the added rows, sorted, with ties in the order of addition, and no other list is. */
  lemma AddedCharacterised(rs: seq<DetailRow>, rows: seq<DetailRow>)
    ensures rows == Added(rs) <==> S.Sorted(rows, Key) && S.SameByKey(rows, rs, Key)
    ensures multiset(Added(rs)) == multiset(rs)
  {
    S.AddedIsSorted(rs, Key);
    forall k ensures S.WithKey(Added(rs), Key, k) == S.WithKey(rs, Key, k) {
      S.AddedIsStable(rs, Key, k);
    }
    if S.Sorted(rows, Key) && S.SameByKey(rows, rs, Key) {
      SameTransitive(rows, rs, Added(rs));
      S.StableSortUnique(rows, Added(rs), Key);
    }
  }

  lemma SameTransitive(a: seq<DetailRow>, b: seq<DetailRow>, c: seq<DetailRow>)
    requires S.SameByKey(a, b, Key) && S.SameByKey(c, b, Key)
    ensures S.SameByKey(a, c, Key)
  {
    forall k ensures S.WithKey(a, Key, k) == S.WithKey(c, Key, k) {
      assert S.WithKey(a, Key, k) == S.WithKey(b, Key, k);
    }
  }

  ghost predicate IsSca(r: DetailRow, s: Severity, name: string, v: string, cve: string, parse: string -> Option<int>)
  {
    exists image, viewer :: r == ScaRow(s, image, cve, name, v, viewer, parse)
  }

  predicate Components(v: string, parse: string -> Option<int>, xs: seq<int>)
  {
    V.ParseAll(Split(v, '.'), parse) == Some(xs) && V.Small(xs)
  }

  /** The sort text of such a row: its package, then its version with the CVE text behind it. */
  lemma ScaText(r: DetailRow, s: Severity, name: string, v: string, cve: string, parse: string -> Option<int>,
                xs: seq<int>)
    requires IsSca(r, s, name, v, cve, parse) && Components(v, parse, xs)
    ensures r.severity == s && r.order == name + (V.Dotted(xs) + cve)
  {
    var image, viewer :| r == ScaRow(s, image, cve, name, v, viewer, parse);
    assert V.Normalized(v, parse) == V.Dotted(xs);
    Regroup(name, V.Dotted(xs), cve);
  }

  lemma Regroup(a: string, b: string, c: string)
    ensures a + b + c == a + (b + c)
  {
  }

  lemma SameName(name: string, p: string, q: string)
    ensures Leq(name + p, name + q) <==> Leq(p, q)
  {
    Prefixed(name, p, name, q);
  }

  /** Keys of SCA rows of one package and severity compare as their versions with the CVE text behind them. */
  lemma ScaKeys(a: DetailRow, b: DetailRow, s: Severity, name: string, parse: string -> Option<int>,
                v: string, cv: string, xs: seq<int>, w: string, cw: string, ys: seq<int>)
    requires IsSca(a, s, name, v, cv, parse) && IsSca(b, s, name, w, cw, parse)
    requires Components(v, parse, xs) && Components(w, parse, ys)
    ensures Leq(Key(a), Key(b)) <==> V.ThenText(xs, cv, ys, cw)
  {
    ScaText(a, s, name, v, cv, parse, xs);
    ScaText(b, s, name, w, cw, parse, ys);
    KeyOrder(a, b);
    SameName(name, V.Dotted(xs) + cv, V.Dotted(ys) + cw);
    V.VersionThenText(xs, cv, ys, cw);
  }

  /**
   Where SCA rows of one package and severity stand, for components 0..999 and any number of them: in numeric
   order at the first component that differs, and where one version runs out first as their texts compare.
   */
  lemma ScaRowsOrder(rs: seq<DetailRow>, i: nat, j: nat, s: Severity, name: string, parse: string -> Option<int>,
                     v: string, cv: string, xs: seq<int>, w: string, cw: string, ys: seq<int>)
    requires i < |Added(rs)| && j < |Added(rs)|
    requires IsSca(Added(rs)[i], s, name, v, cv, parse) && IsSca(Added(rs)[j], s, name, w, cw, parse)
    requires Components(v, parse, xs) && Components(w, parse, ys)
    ensures i < j ==> V.ThenText(xs, cv, ys, cw)
    ensures !V.ThenText(ys, cw, xs, cv) ==> i < j
  {
    ScaKeys(Added(rs)[i], Added(rs)[j], s, name, parse, v, cv, xs, w, cw, ys);
    ScaKeys(Added(rs)[j], Added(rs)[i], s, name, parse, w, cw, ys, v, cv, xs);
    S.AddedIsSorted(rs, Key);
    if !V.ThenText(ys, cw, xs, cv) {
      S.LaterKey(Added(rs), Key, i, j);
    }
  }

  /** An input where numeric order fails: 2.17.1 is listed before 2.17. */
  lemma LongerVersionFirst(s: Severity, name: string, parse: string -> Option<int>)
    requires parse("2") == Some(2) && parse("17") == Some(17) && parse("1") == Some(1)
    ensures var older := ScaRow(s, "", "CVE-2021-44832", name, "2.17", "", parse);
            var newer := ScaRow(s, "", "CVE-2021-45105", name, "2.17.1", "", parse);
            && V.NumLeq([2, 17], [2, 17, 1])
            && Added([older, newer]) == [newer, older]
  {
    var cv, cw := "CVE-2021-44832", "CVE-2021-45105";
    var older := ScaRow(s, "", cv, name, "2.17", "", parse);
    var newer := ScaRow(s, "", cw, name, "2.17.1", "", parse);
    ShortComponents(parse);
    LongComponents(parse);
    assert [2, 17] + [1] == [2, 17, 1];
    V.ExtendedVersion([2, 17], cv, [1], cw);
    assert !Leq(V.Dotted([2, 17]) + cv, V.Dotted([2, 17, 1]) + cw) by {
      Total(V.Dotted([2, 17]) + cv, V.Dotted([2, 17, 1]) + cw);
    }
    V.VersionThenText([2, 17], cv, [2, 17, 1], cw);
    ScaKeys(older, newer, s, name, parse, "2.17", cv, [2, 17], "2.17.1", cw, [2, 17, 1]);
    TwoAdded(older, newer);
  }

  lemma ShortComponents(parse: string -> Option<int>)
    requires parse("2") == Some(2) && parse("17") == Some(17)
    ensures Components("2.17", parse, [2, 17])
  {
    OnlyPart("17", parse, 17);
    LeadingPart("2", "17", parse, 2, [17]);
    assert "2" + ['.'] + "17" == "2.17" && [2] + [17] == [2, 17];
  }

  lemma LongComponents(parse: string -> Option<int>)
    requires parse("2") == Some(2) && parse("17") == Some(17) && parse("1") == Some(1)
    ensures Components("2.17.1", parse, [2, 17, 1])
  {
    OnlyPart("1", parse, 1);
    LeadingPart("17", "1", parse, 17, [1]);
    assert "17" + ['.'] + "1" == "17.1" && [17] + [1] == [17, 1];
    LeadingPart("2", "17.1", parse, 2, [17, 1]);
    assert "2" + ['.'] + "17.1" == "2.17.1" && [2] + [17, 1] == [2, 17, 1];
  }

  lemma OnlyPart(p: string, parse: string -> Option<int>, n: int)
    requires '.' !in p && parse(p) == Some(n) && 0 <= n < 1000
    ensures Components(p, parse, [n])
  {
    SplitPlain(p, '.');
    V.ParseOne(p, [], parse, n, []);
    assert [p] + [] == [p] && [n] + [] == [n];
  }

  lemma LeadingPart(p: string, rest: string, parse: string -> Option<int>, n: int, ns: seq<int>)
    requires '.' !in p && parse(p) == Some(n) && 0 <= n < 1000 && Components(rest, parse, ns)
    ensures Components(p + ['.'] + rest, parse, [n] + ns)
  {
    SplitAtSeparator(p, rest, '.');
    SplitPlain(p, '.');
    V.ParseOne(p, Split(rest, '.'), parse, n, ns);
  }

  lemma TwoAdded(a: DetailRow, b: DetailRow)
    requires !Leq(Key(a), Key(b))
    ensures Added([a, b]) == [b, a]
  {
    assert [a, b][..1] == [a] && [a][..0] == [];
    assert S.Added([a], Key) == [a];
    assert S.Insert([a], b, Key) == [b, a];
  }

  lemma AddedSnoc(rs: seq<DetailRow>, r: DetailRow)
    ensures Added(rs + [r]) == S.Insert(Added(rs), r, Key)
  {
    assert (rs + [r])[..|rs|] == rs;
  }

  /** A table of rows without line breaks has one line per row. */
  lemma TableLines(rows: seq<DetailRow>)
    requires rows != [] && forall i :: 0 <= i < |rows| ==> '\n' !in Line(rows[i])
    ensures Split(Rendered(rows), '\n') == Lines(rows)
  {
    SplitOfJoin(Lines(rows), '\n');
  }
}
