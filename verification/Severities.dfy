/** The severity and state enumerations and their spellings. */
module Severities {
  import opened Options

  datatype Severity = Critical | High | Medium | Low | Info

  /** A severity as a report may carry it. */
  datatype Label = Word(text: string) | Number(n: int)

  /** Every severity, in declaration order. */
  const All: seq<Severity> := [Critical, High, Medium, Low, Info]

  function Rank(s: Severity): (r: nat)
  {
    match s
    case Critical => 0
    case High => 1
    case Medium => 2
    case Low => 3
    case Info => 4
  }

  /** The values a severity is declared with; its rank is the last one. */
  function Values(s: Severity): (r: seq<Label>)
    ensures |r| >= 1 && r[|r| - 1] == Number(Rank(s))
  {
    match s
    case Critical => [Word("Critical"), Number(0)]
    case High => [Word("High"), Number(1)]
    case Medium => [Word("Medium"), Number(2)]
    case Low => [Word("Low"), Number(3)]
    case Info => [Word("Info"), Word("Information"), Word(""), Number(4)]
  }

  /** `ResultSeverity(value)`, or nothing where that raises. */
  function Lookup(l: Label): Option<Severity>
  {
    if l in Values(Critical) then Some(Critical)
    else if l in Values(High) then Some(High)
    else if l in Values(Medium) then Some(Medium)
    else if l in Values(Low) then Some(Low)
    else if l in Values(Info) then Some(Info)
    else None
  }


  /** The first character of a value tells the severities apart. */
  function Initial(l: Label): char
  {
    match l
    case Word(t) => if t == "" then 'I' else t[0]
    case Number(n) =>
      if n == 0 then 'C' else if n == 1 then 'H' else if n == 2 then 'M' else if n == 3 then 'L' else 'I'
  }

  function InitialOf(s: Severity): char
  {
    match s
    case Critical => 'C'
    case High => 'H'
    case Medium => 'M'
    case Low => 'L'
    case Info => 'I'
  }

  lemma ValueInitial(s: Severity, l: Label)
    requires l in Values(s)
    ensures Initial(l) == InitialOf(s)
  {
    match s
    case Critical => assert l == Values(s)[0] || l == Values(s)[1];
    case High => assert l == Values(s)[0] || l == Values(s)[1];
    case Medium => assert l == Values(s)[0] || l == Values(s)[1];
    case Low => assert l == Values(s)[0] || l == Values(s)[1];
    case Info => assert l == Values(s)[0] || l == Values(s)[1] || l == Values(s)[2] || l == Values(s)[3];
  }

  /** A label means a severity exactly when it is one of that severity's values. */
  lemma LookupIsMembership(s: Severity, l: Label)
    ensures Lookup(l) == Some(s) <==> l in Values(s)
  {
    if l in Values(s) {
      forall u: Severity | l in Values(u) ensures u == s {
        ValueInitial(s, l);
        ValueInitial(u, l);
      }
    }
  }

  /** The severities, from the gravest, with every way a report may carry them. */
  lemma SeveritiesSpelled(l: Label)
    ensures Lookup(l) == Some(Critical) <==> l == Word("Critical") || l == Number(0)
    ensures Lookup(l) == Some(High) <==> l == Word("High") || l == Number(1)
    ensures Lookup(l) == Some(Medium) <==> l == Word("Medium") || l == Number(2)
    ensures Lookup(l) == Some(Low) <==> l == Word("Low") || l == Number(3)
    ensures Lookup(l) == Some(Info) <==>
      l == Word("Info") || l == Word("Information") || l == Word("") || l == Number(4)
  {
    LookupIsMembership(Critical, l);
    LookupIsMembership(High, l);
    LookupIsMembership(Medium, l);
    LookupIsMembership(Low, l);
    LookupIsMembership(Info, l);
    TwoValues(Word("Critical"), Number(0), l);
    TwoValues(Word("High"), Number(1), l);
    TwoValues(Word("Medium"), Number(2), l);
    TwoValues(Word("Low"), Number(3), l);
    FourValues(Word("Info"), Word("Information"), Word(""), Number(4), l);
  }

  lemma TwoValues(a: Label, b: Label, l: Label)
    ensures l in [a, b] <==> l == a || l == b
  {
  }

  lemma FourValues(a: Label, b: Label, c: Label, d: Label, l: Label)
    ensures l in [a, b, c, d] <==> l == a || l == b || l == c || l == d
  {
  }

  lemma RanksSpelled()
    ensures Rank(Critical) < Rank(High) < Rank(Medium) < Rank(Low) < Rank(Info)
    ensures All == [Critical, High, Medium, Low, Info]
  {
  }
}
