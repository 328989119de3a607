/**
 The summary table against the detail tables. The summary counts by one query per declared spelling of a
 severity and stops at the first that finds anything; the details look every finding's severity up.
 */
module Summary {
  import opened Options
  import opened Severities
  import opened DetailRows
  import S = SortedLists
  import V = Versions

  const NOT_EXPLOITABLE: string := "Not Exploitable"

  /** One result of one engine's report, in report order. */
  datatype Finding = Finding(state: string, severity: Label, cells: seq<string>, order: string)

  function Num<T>(s: seq<T>, p: T -> bool): nat
  {
    if s == [] then 0 else Num(s[..|s| - 1], p) + if p(s[|s| - 1]) then 1 else 0
  }

  // ---- the summary

  /** A declared value as it is written into the query. */
  function Show(l: Label): string
  {
    match l
    case Word(t) => t
    case Number(n) => if n >= 0 then V.Digits(n) else "-" + V.Digits(-n)
  }

  predicate Live(f: Finding)
  {
    f.state != NOT_EXPLOITABLE
  }

  /** What one query finds: a text in the query equals only the same text in the report. */
  function Found(fs: seq<Finding>, text: string): nat
  {
    Num(fs, (f: Finding) => Live(f) && f.severity == Word(text))
  }

  /** The first value with a positive number gives that number. */
  function FirstPositive(n: Label -> nat, values: seq<Label>): nat
  {
    if values == [] then 0
    else if n(values[0]) > 0 then n(values[0])
    else FirstPositive(n, values[1..])
  }

  function Finds(fs: seq<Finding>): Label -> nat
  {
    (v: Label) => Found(fs, Show(v))
  }

  /** The first value that finds anything gives the count. */
  function FirstFound(fs: seq<Finding>, values: seq<Label>): nat
  {
    FirstPositive(Finds(fs), values)
  }

  function Count(fs: seq<Finding>, s: Severity): nat
  {
    FirstFound(fs, Values(s))
  }

  /** The cell shown: a dash for none. */
  function Cell(n: nat): string
  {
    if n == 0 then "-" else V.Digits(n)
  }

  /** The cell of a severity in one engine's line. */
  function Shown(fs: seq<Finding>, excluded: set<Severity>, s: Severity): string
  {
    if s in excluded then "-" else Cell(Count(fs, s))
  }

  method ResultCountMap(fs: seq<Finding>, excluded: set<Severity>) returns (counts: map<Severity, string>)
    ensures forall s: Severity :: s in counts
    ensures forall s: Severity :: counts[s] == Shown(fs, excluded, s)
  {
    counts := map[];
    for i := 0 to |All|
      invariant forall s: Severity :: s in counts <==> Rank(s) < i
      invariant forall s: Severity :: s in counts ==> counts[s] == "-"
    {
      counts := counts[All[i] := "-"];
    }
    for i := 0 to |All|
      invariant forall s: Severity :: s in counts
      invariant forall s: Severity :: counts[s] == if Rank(s) < i then Shown(fs, excluded, s) else "-"
    {
      RankOfAll(i);
      var cell := OneCell(fs, excluded, All[i]);
      counts := counts[All[i] := cell];
    }
  }

  lemma RankOfAll(i: nat)
    requires i < |All|
    ensures forall s: Severity :: Rank(s) == i <==> s == All[i]
  {
  }

  /** An excluded severity keeps its dash. */
  method OneCell(fs: seq<Finding>, excluded: set<Severity>, s: Severity) returns (cell: string)
    ensures cell == Shown(fs, excluded, s)
  {
    cell := "-";
    if s !in excluded {
      cell := CountCell(fs, s, cell);
    }
  }

  /** The inner loop: the first spelling with a result ends it, and none leaves what was there. */
  method CountCell(fs: seq<Finding>, s: Severity, unset: string) returns (cell: string)
    ensures cell == if Count(fs, s) == 0 then unset else V.Digits(Count(fs, s))
  {
    cell := unset;
    var values := Values(s);
    var j := 0;
    while j < |values|
      invariant 0 <= j <= |values| && cell == unset
      invariant Count(fs, s) == FirstFound(fs, values[j..])
    {
      var found := Found(fs, Show(values[j]));
      assert values[j..][1..] == values[j + 1..];
      if found > 0 {
        cell := V.Digits(found);
        break;
      }
      j := j + 1;
    }
  }

  // ---- the details

  predicate Excluded(f: Finding, states: set<string>, severities: set<Severity>)
  {
    || f.state in states
    || (Lookup(f.severity).Some? && Lookup(f.severity).value in severities)
  }

  /** The rows added, in report order; an unknown severity that is not excluded raises. */
  function RowsOf(fs: seq<Finding>, states: set<string>, severities: set<Severity>): Option<seq<DetailRow>>
  {
    if fs == [] then Some([])
    else
      var f := fs[|fs| - 1];
      match RowsOf(fs[..|fs| - 1], states, severities)
      case None => None
      case Some(rows) =>
        if Excluded(f, states, severities) then Some(rows)
        else match Lookup(f.severity)
          case None => None
          case Some(s) => Some(rows + [DetailRow(s, f.cells, f.order)])
  }

  lemma {:induction false} RaiseStays(fs: seq<Finding>, i: nat, states: set<string>, severities: set<Severity>)
    requires i <= |fs| && RowsOf(fs[..i], states, severities).None?
    ensures RowsOf(fs, states, severities).None?
    decreases |fs|
  {
    if i < |fs| {
      assert fs[..|fs| - 1][..i] == fs[..i];
      RaiseStays(fs[..|fs| - 1], i, states, severities);
    } else {
      assert fs[..i] == fs;
    }
  }

  /**
   The rows are exactly the results whose state and severity are not excluded, one for each, in report order,
   under the severity that is looked up; building them fails exactly when such a result's severity is unknown.
   */
  lemma {:induction false} RowsAreShown(fs: seq<Finding>, states: set<string>, severities: set<Severity>)
    returns (at: seq<nat>)
    requires RowsOf(fs, states, severities).Some?
    ensures AllShown(fs, states, severities, RowsOf(fs, states, severities).value, at)
  {
    at := [];
    if fs != [] {
      var n := |fs| - 1;
      RowsOfLonger(fs, states, severities);
      at := RowsAreShown(fs[..n], states, severities);
      HiddenIsExcluded(fs[n], states, severities);
      var rows := RowsOf(fs[..n], states, severities).value;
      if Excluded(fs[n], states, severities) {
        HideLast(fs, states, severities, rows, at);
      } else {
        var row := DetailRow(Lookup(fs[n].severity).value, fs[n].cells, fs[n].order);
        LookupIsMembership(row.severity, fs[n].severity);
        ShowLast(fs, states, severities, rows, at, row);
        at := at + [n];
      }
    }
  }

  ghost predicate AllShown(fs: seq<Finding>, states: set<string>, severities: set<Severity>,
                           rows: seq<DetailRow>, at: seq<nat>)
  {
    && |at| == |rows|
    && (forall i :: 0 <= i < |at| ==> at[i] < |fs| && ShownAs(fs[at[i]], states, severities, rows[i]))
    && (forall i, j :: 0 <= i < j < |at| ==> at[i] < at[j])
    && (forall k :: 0 <= k < |fs| && k !in at ==> Hidden(fs[k], states, severities))
  }

  lemma HiddenIsExcluded(f: Finding, states: set<string>, severities: set<Severity>)
    ensures Hidden(f, states, severities) <==> Excluded(f, states, severities)
  {
    forall s: Severity ensures Lookup(f.severity) == Some(s) <==> f.severity in Values(s) {
      LookupIsMembership(s, f.severity);
    }
  }

  lemma HideLast(fs: seq<Finding>, states: set<string>, severities: set<Severity>, rows: seq<DetailRow>, at: seq<nat>)
    requires fs != [] && AllShown(fs[..|fs| - 1], states, severities, rows, at)
    requires Hidden(fs[|fs| - 1], states, severities)
    ensures AllShown(fs, states, severities, rows, at)
  {
  }

  lemma ShowLast(fs: seq<Finding>, states: set<string>, severities: set<Severity>, rows: seq<DetailRow>, at: seq<nat>,
                 row: DetailRow)
    requires fs != [] && AllShown(fs[..|fs| - 1], states, severities, rows, at)
    requires ShownAs(fs[|fs| - 1], states, severities, row)
    ensures AllShown(fs, states, severities, rows + [row], at + [|fs| - 1])
  {
    var n, all := |fs| - 1, at + [|fs| - 1];
    assert all[|at|] == n;
    forall k | 0 <= k < |fs| && k !in all ensures Hidden(fs[k], states, severities) {
      assert k != n;
      assert fs[k] == fs[..n][k];
    }
  }

  /** Excluded by its state, or by a severity that is known and excluded. */
  predicate Hidden(f: Finding, states: set<string>, severities: set<Severity>)
  {
    f.state in states || exists s :: s in severities && f.severity in Values(s)
  }

  predicate ShownAs(f: Finding, states: set<string>, severities: set<Severity>, row: DetailRow)
  {
    && f.state !in states && row.severity !in severities
    && f.severity in Values(row.severity) && row.cells == f.cells && row.order == f.order
  }

  // ---- counting

  lemma NumOne<T>(x: T, p: T -> bool)
    ensures Num([x], p) == if p(x) then 1 else 0
  {
    assert [x][..0] == [];
  }

  lemma {:induction false} NumCompare<T(!new)>(s: seq<T>, p: T -> bool, q: T -> bool)
    requires forall x :: x in s && p(x) ==> q(x)
    ensures Num(s, p) <= Num(s, q)
    ensures Num(s, p) == Num(s, q) <==> forall x :: x in s && q(x) ==> p(x)
  {
    if s != [] {
      var front, last := s[..|s| - 1], s[|s| - 1];
      assert s == front + [last];
      NumCompare(front, p, q);
    }
  }

  lemma {:induction false} NumPositive<T(!new)>(s: seq<T>, p: T -> bool)
    ensures Num(s, p) > 0 <==> exists x :: x in s && p(x)
  {
    if s != [] {
      var front, last := s[..|s| - 1], s[|s| - 1];
      assert s == front + [last];
      NumPositive(front, p);
    }
  }

  lemma {:induction false} NumInsert<T(!new)>(s: seq<T>, x: T, key: T -> string, p: T -> bool)
    ensures Num(S.Insert(s, x, key), p) == Num(s, p) + if p(x) then 1 else 0
  {
    if s == [] {
      assert [x][..0] == [];
    } else {
      var r := S.Insert(s, x, key);
      if r == s + [x] {
        assert r[..|r| - 1] == s;
      } else {
        NumInsert(s[..|s| - 1], x, key, p);
        assert r[..|r| - 1] == S.Insert(s[..|s| - 1], x, key);
      }
    }
  }

  lemma {:induction false} NumAdded<T(!new)>(xs: seq<T>, key: T -> string, p: T -> bool)
    ensures Num(S.Added(xs, key), p) == Num(xs, p)
  {
    if xs != [] {
      NumAdded(xs[..|xs| - 1], key, p);
      NumInsert(S.Added(xs[..|xs| - 1], key), xs[|xs| - 1], key, p);
    }
  }

  /** The true number: results that are not "Not Exploitable" and whose severity is `s`. */
  function TrueNumber(fs: seq<Finding>, s: Severity): nat
  {
    Num(fs, (f: Finding) => Live(f) && Lookup(f.severity) == Some(s))
  }

  function RowsWith(rows: seq<DetailRow>, s: Severity): nat
  {
    Num(rows, (r: DetailRow) => r.severity == s)
  }

  lemma NumSnoc<T>(s: seq<T>, x: T, p: T -> bool)
    ensures Num(s + [x], p) == Num(s, p) + if p(x) then 1 else 0
  {
    assert (s + [x])[..|s|] == s;
  }

  lemma RowsOfLonger(fs: seq<Finding>, states: set<string>, severities: set<Severity>)
    requires fs != [] && RowsOf(fs, states, severities).Some?
    ensures var front, f := RowsOf(fs[..|fs| - 1], states, severities), fs[|fs| - 1];
      && front.Some?
      && (Excluded(f, states, severities) ==> RowsOf(fs, states, severities) == front)
      && (!Excluded(f, states, severities) ==>
            && Lookup(f.severity).Some?
            && RowsOf(fs, states, severities).value
                 == front.value + [DetailRow(Lookup(f.severity).value, f.cells, f.order)])
  {
  }

  lemma RowsWithAdded(rows: seq<DetailRow>, row: DetailRow, s: Severity)
    ensures RowsWith(rows + [row], s) == RowsWith(rows, s) + if row.severity == s then 1 else 0
  {
    NumSnoc(rows, row, (r: DetailRow) => r.severity == s);
  }

  lemma TrueNumberLonger(fs: seq<Finding>, s: Severity)
    requires fs != []
    ensures var f := fs[|fs| - 1];
      TrueNumber(fs, s) == TrueNumber(fs[..|fs| - 1], s) + if Live(f) && Lookup(f.severity) == Some(s) then 1 else 0
  {
    assert fs == fs[..|fs| - 1] + [fs[|fs| - 1]];
    NumSnoc(fs[..|fs| - 1], fs[|fs| - 1], (f: Finding) => Live(f) && Lookup(f.severity) == Some(s));
  }

  /** A result of a severity that is shown is excluded exactly when it is not exploitable. */
  lemma ExcludedMeans(f: Finding, severities: set<Severity>, s: Severity)
    requires s !in severities && Lookup(f.severity) == Some(s)
    ensures Excluded(f, {NOT_EXPLOITABLE}, severities) <==> !Live(f)
  {
  }

  lemma {:induction false} RowsCounted(fs: seq<Finding>, severities: set<Severity>, s: Severity)
    requires RowsOf(fs, {NOT_EXPLOITABLE}, severities).Some? && s !in severities
    ensures RowsWith(RowsOf(fs, {NOT_EXPLOITABLE}, severities).value, s) == TrueNumber(fs, s)
  {
    if fs != [] {
      var front, f := fs[..|fs| - 1], fs[|fs| - 1];
      RowsOfLonger(fs, {NOT_EXPLOITABLE}, severities);
      TrueNumberLonger(fs, s);
      RowsCounted(front, severities, s);
      LiveIfShown(f, severities);
      if Lookup(f.severity) == Some(s) {
        ExcludedMeans(f, severities, s);
      }
      if !Excluded(f, {NOT_EXPLOITABLE}, severities) {
        var row := DetailRow(Lookup(f.severity).value, f.cells, f.order);
        RowsWithAdded(RowsOf(front, {NOT_EXPLOITABLE}, severities).value, row, s);
      }
    }
  }

  lemma LiveIfShown(f: Finding, severities: set<Severity>)
    ensures !Excluded(f, {NOT_EXPLOITABLE}, severities) ==> Live(f)
  {
  }

  /** Every live severity is a declared value. */
  ghost predicate Known(fs: seq<Finding>)
  {
    forall f :: f in fs && Live(f) ==> Lookup(f.severity).Some?
  }

  /** The details can be built exactly when every live severity is a declared value. */
  lemma {:induction false} BuiltIffKnown(fs: seq<Finding>, severities: set<Severity>)
    ensures RowsOf(fs, {NOT_EXPLOITABLE}, severities).Some? <==> Known(fs)
  {
    if fs != [] {
      assert fs == fs[..|fs| - 1] + [fs[|fs| - 1]];
      BuiltIffKnown(fs[..|fs| - 1], severities);
    }
  }

  // ---- the two agree exactly for uniform spelling

  /** The live results of a severity all carry one and the same text. */
  ghost predicate OneSpelling(fs: seq<Finding>, s: Severity)
  {
    exists t: string :: AllSpelled(fs, s, t)
  }

  ghost predicate AllSpelled(fs: seq<Finding>, s: Severity, t: string)
  {
    forall f :: f in fs && Live(f) && Lookup(f.severity) == Some(s) ==> f.severity == Word(t)
  }

  /** Either no value has a positive number, or the first that has one gives it. */
  lemma {:induction false} FirstPositiveIs(n: Label -> nat, values: seq<Label>) returns (v: Label)
    ensures FirstPositive(n, values) == 0 ==> forall w :: w in values ==> n(w) == 0
    ensures FirstPositive(n, values) > 0 ==> v in values && FirstPositive(n, values) == n(v)
  {
    v := Number(0);
    if values != [] {
      assert values == [values[0]] + values[1..];
      if n(values[0]) > 0 {
        v := values[0];
      } else {
        v := FirstPositiveIs(n, values[1..]);
      }
    }
  }

  lemma FirstFoundIs(fs: seq<Finding>, values: seq<Label>) returns (v: Label)
    ensures FirstFound(fs, values) == 0 ==> forall w :: w in values ==> Found(fs, Show(w)) == 0
    ensures FirstFound(fs, values) > 0 ==> v in values && FirstFound(fs, values) == Found(fs, Show(v))
  {
    v := FirstPositiveIs(Finds(fs), values);
    forall w | FirstFound(fs, values) == 0 && w in values ensures Found(fs, Show(w)) == 0 {
      assert Finds(fs)(w) == 0;
    }
  }

  /** A text some live result carries, in a report with known severities: it is a declared text, not a number. */
  lemma FoundIsWord(fs: seq<Finding>, s: Severity, v: Label)
    requires Known(fs)
    requires v in Values(s) && Found(fs, Show(v)) > 0
    ensures Lookup(Word(Show(v))) == Some(s)
  {
    var p := (f: Finding) => Live(f) && f.severity == Word(Show(v));
    NumPositive(fs, p);
    var f :| f in fs && p(f);
    if v.Number? {
      assert v.n == Rank(s) by { NumberIsRank(s, v); }
      DigitUnknown(v.n);
    }
    LookupIsMembership(s, v);
  }

  lemma NumberIsRank(s: Severity, v: Label)
    requires v in Values(s) && v.Number?
    ensures v.n == Rank(s)
  {
    match s
    case Info => assert v == Values(s)[0] || v == Values(s)[1] || v == Values(s)[2] || v == Values(s)[3];
    case _ => assert v == Values(s)[0] || v == Values(s)[1];
  }

  /** A rank written as text is no declared value. */
  lemma DigitUnknown(n: nat)
    requires n < 10
    ensures Lookup(Word(V.Digits(n))) == None
  {
    var l := Word(V.Digits(n));
    assert V.DIGITS[n] <= '9';
    if Lookup(l).Some? {
      var s := Lookup(l).value;
      LookupIsMembership(s, l);
      ValueInitial(s, l);
    }
  }

  // ---- a count against the true number

  /** The declared texts of a severity: all its values but the rank. */
  function Words(s: Severity): seq<Label>
  {
    Values(s)[..|Values(s)| - 1]
  }

  lemma WordsAndRank(s: Severity, l: Label)
    ensures l in Words(s) <==> l in Values(s) && l.Word?
    ensures Values(s) == Words(s) + [Number(Rank(s))]
  {
    if l in Values(s) && l.Number? {
      NumberIsRank(s, l);
    }
  }

  lemma {:induction false} FirstPositiveConcat(n: Label -> nat, a: seq<Label>, b: seq<Label>)
    ensures FirstPositive(n, a + b) == if FirstPositive(n, a) > 0 then FirstPositive(n, a) else FirstPositive(n, b)
  {
    if a == [] {
      assert a + b == b;
    } else {
      assert (a + b)[1..] == a[1..] + b;
      FirstPositiveConcat(n, a[1..], b);
    }
  }

  lemma FirstPositiveOne(n: Label -> nat, v: Label)
    ensures FirstPositive(n, [v]) == n(v)
  {
    assert [v][1..] == [];
  }

  lemma FirstFoundConcat(fs: seq<Finding>, a: seq<Label>, b: seq<Label>)
    ensures FirstFound(fs, a + b) == if FirstFound(fs, a) > 0 then FirstFound(fs, a) else FirstFound(fs, b)
  {
    FirstPositiveConcat(Finds(fs), a, b);
  }

  /** Live results that carry the severity as a number. */
  function Numbered(fs: seq<Finding>, s: Severity): nat
  {
    Num(fs, (f: Finding) => Live(f) && f.severity == Number(Rank(s)))
  }

  /** No live result carries a declared text of the severity. */
  ghost predicate NoWords(fs: seq<Finding>, s: Severity)
  {
    forall f :: f in fs && Live(f) && Lookup(f.severity) == Some(s) ==> f.severity.Number?
  }

  /** Some declared text occurs: the count is that of one such text, so at most the true number. */
  lemma CountWithWords(fs: seq<Finding>, s: Severity, f: Finding)
    requires f in fs && Live(f) && Lookup(f.severity) == Some(s) && f.severity.Word?
    ensures 0 < Count(fs, s) <= TrueNumber(fs, s)
  {
    var t := f.severity.text;
    LookupIsMembership(s, f.severity);
    WordsAndRank(s, f.severity);
    FirstFoundConcat(fs, Words(s), [Number(Rank(s))]);
    var p := (g: Finding) => Live(g) && g.severity == Word(t);
    assert p(f);
    NumPositive(fs, p);
    assert Found(fs, Show(Word(t))) > 0;
    var v := FirstFoundIs(fs, Words(s));
    WordsAndRank(s, v);
    LookupIsMembership(s, v);
    NumCompare(fs, (g: Finding) => Live(g) && g.severity == Word(Show(v)),
               (g: Finding) => Live(g) && Lookup(g.severity) == Some(s));
  }

  lemma WordsFindNothing(fs: seq<Finding>, s: Severity)
    requires NoWords(fs, s)
    ensures FirstFound(fs, Words(s)) == 0
  {
    var v := FirstFoundIs(fs, Words(s));
    if FirstFound(fs, Words(s)) > 0 {
      WordsAndRank(s, v);
      LookupIsMembership(s, v);
      NumPositive(fs, (g: Finding) => Live(g) && g.severity == Word(Show(v)));
      assert false;
    }
  }

  lemma OnlyNumbered(fs: seq<Finding>, s: Severity)
    requires NoWords(fs, s)
    ensures TrueNumber(fs, s) == Numbered(fs, s)
  {
    var rank := Number(Rank(s));
    WordsAndRank(s, rank);
    LookupIsMembership(s, rank);
    forall f | f in fs && Live(f) && Lookup(f.severity) == Some(s) ensures f.severity == rank {
      LookupIsMembership(s, f.severity);
      NumberIsRank(s, f.severity);
    }
    NumCompare(fs, (g: Finding) => Live(g) && g.severity == rank,
               (g: Finding) => Live(g) && Lookup(g.severity) == Some(s));
  }

  /** No declared text occurs: the count is that of the rank written as a text, the true number that of the rank. */
  lemma CountWithoutWords(fs: seq<Finding>, s: Severity)
    requires NoWords(fs, s)
    ensures Count(fs, s) == Found(fs, V.Digits(Rank(s))) && TrueNumber(fs, s) == Numbered(fs, s)
  {
    var rank := Number(Rank(s));
    WordsFindNothing(fs, s);
    OnlyNumbered(fs, s);
    WordsAndRank(s, rank);
    FirstFoundConcat(fs, Words(s), [rank]);
    FirstPositiveOne(Finds(fs), rank);
  }

  /**
   For any report: a shown count exceeds the true number exactly when no live result carries a declared text of
   the severity and more live results carry its rank as a text than as a number.
   */
  lemma CountExceedsIff(fs: seq<Finding>, s: Severity)
    ensures Count(fs, s) > TrueNumber(fs, s) <==> NoWords(fs, s) && Found(fs, V.Digits(Rank(s))) > Numbered(fs, s)
  {
    if NoWords(fs, s) {
      CountWithoutWords(fs, s);
    } else {
      var f :| f in fs && Live(f) && Lookup(f.severity) == Some(s) && f.severity.Word?;
      CountWithWords(fs, s, f);
    }
  }

  /** An input where it does: one result spelled "0". A comment is still built when its state is excluded. */
  lemma RankAsTextOvercounts(state: string)
    requires state != NOT_EXPLOITABLE
    ensures var fs := [Finding(state, Word("0"), [], "")];
            && Count(fs, Critical) == 1 && TrueNumber(fs, Critical) == 0
            && RowsOf(fs, {NOT_EXPLOITABLE, state}, {}) == Some([])
  {
    var fs := [Finding(state, Word("0"), [], "")];
    assert fs[..0] == [];
    NumOne(fs[0], (f: Finding) => Live(f) && f.severity == Word("0"));
    NumOne(fs[0], (f: Finding) => Live(f) && f.severity == Number(0));
    assert V.Digits(0) == "0";
    DigitUnknown(0);
    assert NoWords(fs, Critical);
    CountWithoutWords(fs, Critical);
  }

  /** So it never does in a report whose live severities are all declared values. */
  lemma CountNeverExceeds(fs: seq<Finding>, s: Severity)
    requires Known(fs)
    ensures Count(fs, s) <= TrueNumber(fs, s)
  {
    CountExceedsIff(fs, s);
    DigitUnknown(Rank(s));
    NumPositive(fs, (f: Finding) => Live(f) && f.severity == Word(V.Digits(Rank(s))));
  }

  /** A shown count is the number of rows of that severity iff the report spells the severity one way, as a text. */
  lemma SummaryAgreesIff(fs: seq<Finding>, severities: set<Severity>, s: Severity)
    requires RowsOf(fs, {NOT_EXPLOITABLE}, severities).Some? && s !in severities
    ensures var rows := Added(RowsOf(fs, {NOT_EXPLOITABLE}, severities).value);
            Count(fs, s) == RowsWith(rows, s) <==> OneSpelling(fs, s)
  {
    var plain := RowsOf(fs, {NOT_EXPLOITABLE}, severities).value;
    NumAdded(plain, Key, (r: DetailRow) => r.severity == s);
    RowsCounted(fs, severities, s);
    BuiltIffKnown(fs, severities);
    var v := FirstFoundIs(fs, Values(s));
    if Count(fs, s) == 0 {
      NoneFound(fs, s);
    } else {
      FoundIsWord(fs, s, v);
      CountIsOneSpelling(fs, s, Show(v));
    }
  }

  /** With nothing found, the numbers agree iff there is nothing. */
  lemma NoneFound(fs: seq<Finding>, s: Severity)
    requires Count(fs, s) == 0
    ensures TrueNumber(fs, s) == 0 <==> OneSpelling(fs, s)
  {
    var q := (f: Finding) => Live(f) && Lookup(f.severity) == Some(s);
    NumPositive(fs, q);
    if TrueNumber(fs, s) == 0 {
      assert AllSpelled(fs, s, "");
    } else if OneSpelling(fs, s) {
      var f :| f in fs && q(f);
      CountWithWords(fs, s, f);
    }
  }

  lemma CountIsOneSpelling(fs: seq<Finding>, s: Severity, t: string)
    requires Found(fs, t) > 0 && Lookup(Word(t)) == Some(s)
    ensures Found(fs, t) == TrueNumber(fs, s) <==> OneSpelling(fs, s)
  {
    var p := (f: Finding) => Live(f) && f.severity == Word(t);
    var q := (f: Finding) => Live(f) && Lookup(f.severity) == Some(s);
    NumCompare(fs, p, q);
    NumPositive(fs, p);
    var g :| g in fs && p(g);
    if Found(fs, t) == TrueNumber(fs, s) {
      assert AllSpelled(fs, s, t);
    }
    if OneSpelling(fs, s) {
      var u :| AllSpelled(fs, s, u);
      assert u == t;
    }
  }

  /** What one query finds, spelled out: results that are not marked as not exploitable, with exactly that text. */
  lemma {:induction false} FoundSpelled(fs: seq<Finding>, text: string)
    ensures Found(fs, text) == Num(fs, (f: Finding) => f.state != "Not Exploitable" && f.severity == Word(text))
  {
    if fs != [] {
      FoundSpelled(fs[..|fs| - 1], text);
    }
  }

  /** The dash is shown iff no live result spells the severity as a text; so it means no rows if none is a number. */
  lemma DashIffNone(fs: seq<Finding>, severities: set<Severity>, s: Severity)
    requires RowsOf(fs, {NOT_EXPLOITABLE}, severities).Some? && s !in severities
    ensures Cell(Count(fs, s)) == "-"
       <==> forall f :: f in fs && Live(f) && Lookup(f.severity) == Some(s) ==> f.severity.Number?
    ensures (forall f :: f in fs && Live(f) && Lookup(f.severity) == Some(s) ==> f.severity.Word?)
        ==> (Cell(Count(fs, s)) == "-"
             <==> RowsWith(Added(RowsOf(fs, {NOT_EXPLOITABLE}, severities).value), s) == 0)
  {
    BuiltIffKnown(fs, severities);
    V.DigitsNoDash(Count(fs, s));
    forall f | f in fs && Live(f) && Lookup(f.severity) == Some(s) && f.severity.Word? ensures Count(fs, s) > 0 {
      CountWithWords(fs, s, f);
    }
    if Count(fs, s) > 0 {
      var v := FirstFoundIs(fs, Values(s));
      FoundIsWord(fs, s, v);
      var p := (f: Finding) => Live(f) && f.severity == Word(Show(v));
      NumPositive(fs, p);
    }
    NumAdded(RowsOf(fs, {NOT_EXPLOITABLE}, severities).value, Key, (r: DetailRow) => r.severity == s);
    RowsCounted(fs, severities, s);
    NumPositive(fs, (f: Finding) => Live(f) && Lookup(f.severity) == Some(s));
    CountNeverExceeds(fs, s);
  }
}
