/** Three-digit padding, and the package version text the SCA rows are sorted by. */
module Versions {
  import opened Text
  import opened Lex
  import opened Options

  const DIGITS: string := "0123456789"

  function Digits(n: nat): (r: string)
    ensures |r| >= 1
  {
    if n < 10 then [DIGITS[n]] else Digits(n / 10) + [DIGITS[n % 10]]
  }

  /** The number a text of digits stands for. */
  function ValueOf(digits: string): nat
  {
    if digits == "" then 0
    else 10 * ValueOf(digits[..|digits| - 1]) + DigitValue(digits[|digits| - 1])
  }

  function DigitValue(c: char): nat
  {
    if '0' <= c <= '9' then c as int - '0' as int else 0
  }

  lemma DigitOf(d: nat)
    requires d < 10
    ensures DigitValue(DIGITS[d]) == d
  {
  }

  lemma ValueSnoc(digits: string, c: char)
    ensures ValueOf(digits + [c]) == 10 * ValueOf(digits) + DigitValue(c)
  {
    assert (digits + [c])[..|digits|] == digits;
  }

  /** The digits of a number stand for it. */
  lemma {:induction false} DigitsValue(n: nat)
    ensures ValueOf(Digits(n)) == n
  {
    DigitOf(n % 10);
    if n < 10 {
      ValueSnoc("", DIGITS[n]);
      assert "" + [DIGITS[n]] == Digits(n);
    } else {
      DigitsValue(n / 10);
      ValueSnoc(Digits(n / 10), DIGITS[n % 10]);
    }
  }

  lemma {:induction false} DigitsNoDash(n: nat)
    ensures '-' !in Digits(n)
  {
    if n >= 10 {
      DigitsNoDash(n / 10);
    }
  }

  function Zeros(k: nat): (r: string)
    ensures |r| == k
  {
    if k == 0 then "" else "0" + Zeros(k - 1)
  }

  function PadTo(s: string, width: nat): (r: string)
    ensures |r| >= width && |r| >= |s|
  {
    if |s| < width then Zeros(width - |s|) + s else s
  }

  /** The format `:03` of an integer: the sign counts towards the width. */
  function Padded(n: int): string
  {
    if n >= 0 then PadTo(Digits(n), 3) else "-" + PadTo(Digits(-n), 2)
  }

  // ---- order of padded numbers

  lemma DigitOrder(i: nat, j: nat)
    requires i < 10 && j < 10
    ensures DIGITS[i] < DIGITS[j] <==> i < j
    ensures DIGITS[i] != '.'
  {
  }

  lemma OneDigit(n: nat)
    requires n < 10
    ensures Padded(n) == [DIGITS[n / 100], DIGITS[n / 10 % 10], DIGITS[n % 10]]
  {
    ZerosSmall();
    assert Padded(n) == Zeros(2) + [DIGITS[n]];
    assert n / 100 == 0 && n / 10 % 10 == 0 && n % 10 == n;
  }

  lemma TwoDigits(n: nat)
    requires 10 <= n < 100
    ensures Padded(n) == [DIGITS[n / 100], DIGITS[n / 10 % 10], DIGITS[n % 10]]
  {
    ZerosSmall();
    assert Digits(n / 10) == [DIGITS[n / 10]];
    assert Digits(n) == Digits(n / 10) + [DIGITS[n % 10]];
    assert Padded(n) == Zeros(1) + Digits(n);
    assert n / 100 == 0 && n / 10 % 10 == n / 10;
  }

  lemma DigitsOfHundreds(n: nat)
    requires 100 <= n < 1000
    ensures Digits(n) == [DIGITS[n / 100], DIGITS[n / 10 % 10], DIGITS[n % 10]]
  {
    var m := n / 10;
    assert m / 10 == n / 100 && m / 10 < 10 <= m;
    assert Digits(m / 10) == [DIGITS[m / 10]];
    assert Digits(m) == Digits(m / 10) + [DIGITS[m % 10]];
    assert Digits(n) == Digits(m) + [DIGITS[n % 10]];
  }

  lemma ThreeDigits(n: nat)
    requires n < 1000
    ensures Padded(n) == [DIGITS[n / 100], DIGITS[n / 10 % 10], DIGITS[n % 10]]
  {
    if n < 10 {
      OneDigit(n);
    } else if n < 100 {
      TwoDigits(n);
    } else {
      DigitsOfHundreds(n);
    }
  }

  lemma ZerosSmall()
    ensures Zeros(1) == [DIGITS[0]] && Zeros(2) == [DIGITS[0], DIGITS[0]]
  {
    assert Zeros(0) == "";
    assert Zeros(1) == "0" + Zeros(0) == "0";
    assert Zeros(2) == "0" + Zeros(1);
  }

  lemma ThreeCompare(a: string, b: string)
    requires |a| == |b| == 3
    ensures Leq(a, b) <==> a[0] < b[0] || (a[0] == b[0] && (a[1] < b[1] || (a[1] == b[1] && a[2] <= b[2])))
  {
    assert Leq(a[1..][1..], b[1..][1..]) <==> a[2] <= b[2] by {
      assert Leq(a[1..][1..][1..], b[1..][1..][1..]);
    }
  }

  /** Below a thousand, string order of padded numbers is numeric order. */
  lemma PaddedOrder(m: nat, n: nat)
    requires m < 1000 && n < 1000
    ensures Leq(Padded(m), Padded(n)) <==> m <= n
    ensures |Padded(m)| == 3
    ensures Padded(m) == Padded(n) <==> m == n
    ensures '.' !in Padded(m)
  {
    ThreeDigits(m);
    ThreeDigits(n);
    ThreeCompare(Padded(m), Padded(n));
    DigitOrder(m / 100, n / 100);
    DigitOrder(n / 100, m / 100);
    DigitOrder(m / 10 % 10, n / 10 % 10);
    DigitOrder(n / 10 % 10, m / 10 % 10);
    DigitOrder(m % 10, n % 10);
    DigitOrder(n % 10, m % 10);
    ThreeParts(m);
    ThreeParts(n);
  }

  lemma ThreeParts(n: nat)
    requires n < 1000
    ensures n == 100 * (n / 100) + 10 * (n / 10 % 10) + n % 10
  {
  }

  // ---- normalized_version

  /** The numbers of the components, when `int` accepts every one of them. */
  function ParseAll(parts: seq<string>, parse: string -> Option<int>): (r: Option<seq<int>>)
    ensures r.Some? ==> |r.value| == |parts|
  {
    if parts == [] then Some([])
    else match parse(parts[0])
      case None => None
      case Some(n) =>
        match ParseAll(parts[1..], parse)
        case None => None
        case Some(ns) => Some([n] + ns)
  }

  lemma ParseOne(p: string, rest: seq<string>, parse: string -> Option<int>, n: int, ns: seq<int>)
    requires parse(p) == Some(n) && ParseAll(rest, parse) == Some(ns)
    ensures ParseAll([p] + rest, parse) == Some([n] + ns)
  {
    assert ([p] + rest)[1..] == rest;
  }

  function PadAll(ns: seq<int>): (r: seq<string>)
    ensures |r| == |ns|
  {
    if ns == [] then [] else [Padded(ns[0])] + PadAll(ns[1..])
  }

  function Dotted(ns: seq<int>): string
  {
    Join(PadAll(ns), '.')
  }

  /** A version with a component that is no number is left as it is. */
  function Normalized(version: string, parse: string -> Option<int>): string
  {
    match ParseAll(Split(version, '.'), parse)
    case None => version
    case Some(ns) => Dotted(ns)
  }

  /** A version keeps its text exactly when some component is no number, or it already has its normal form. */
  lemma {:induction false} ParsesIff(parts: seq<string>, parse: string -> Option<int>)
    ensures ParseAll(parts, parse).None? <==> exists i :: 0 <= i < |parts| && parse(parts[i]).None?
    ensures ParseAll(parts, parse).Some? ==>
      forall i :: 0 <= i < |parts| ==> parse(parts[i]) == Some(ParseAll(parts, parse).value[i])
  {
    if parts != [] {
      ParsesIff(parts[1..], parse);
      assert forall i :: 1 <= i < |parts| ==> parts[i] == parts[1..][i - 1];
    }
  }

  lemma UnparsedKept(version: string, parse: string -> Option<int>, i: nat)
    requires i < |Split(version, '.')| && parse(Split(version, '.')[i]).None?
    ensures Normalized(version, parse) == version
  {
    ParsesIff(Split(version, '.'), parse);
  }

  /** Components in numeric order, a version with further components after its prefix. */
  predicate NumLeq(xs: seq<int>, ys: seq<int>)
  {
    xs == [] || (ys != [] && (xs[0] < ys[0] || (xs[0] == ys[0] && NumLeq(xs[1..], ys[1..]))))
  }

  predicate Small(ns: seq<int>)
  {
    forall i :: 0 <= i < |ns| ==> 0 <= ns[i] < 1000
  }

  lemma DottedHead(ns: seq<int>)
    requires ns != [] && Small(ns)
    ensures Dotted(ns) == Padded(ns[0]) + Tail(ns)
    ensures Small(ns[1..]) && 0 <= ns[0] < 1000
  {
    assert PadAll(ns)[1..] == PadAll(ns[1..]);
  }

  lemma {:induction false} DottedOrder(xs: seq<int>, ys: seq<int>)
    requires xs != [] && ys != [] && Small(xs) && Small(ys)
    ensures Leq(Dotted(xs), Dotted(ys)) <==> NumLeq(xs, ys)
  {
    HeadDecides(xs, ys);
    if |xs| > 1 && |ys| > 1 {
      DottedHead(xs);
      DottedHead(ys);
      DottedOrder(xs[1..], ys[1..]);
      Prefixed(".", Dotted(xs[1..]), ".", Dotted(ys[1..]));
    }
  }

  function Tail(ns: seq<int>): string
    requires ns != []
  {
    if |ns| == 1 then "" else "." + Dotted(ns[1..])
  }

  lemma HeadDecides(xs: seq<int>, ys: seq<int>)
    requires xs != [] && ys != [] && Small(xs) && Small(ys)
    ensures Leq(Dotted(xs), Dotted(ys)) <==> xs[0] < ys[0] || (xs[0] == ys[0] && Leq(Tail(xs), Tail(ys)))
  {
    DottedHead(xs);
    DottedHead(ys);
    PaddedOrder(xs[0], ys[0]);
    PaddedOrder(ys[0], xs[0]);
    Prefixed(Padded(xs[0]), Tail(xs), Padded(ys[0]), Tail(ys));
  }

  /** For components 0..999 the numeric order of two versions is the string order of their normal forms. */
  lemma VersionOrder(v: string, w: string, parse: string -> Option<int>, xs: seq<int>, ys: seq<int>)
    requires ParseAll(Split(v, '.'), parse) == Some(xs) && ParseAll(Split(w, '.'), parse) == Some(ys)
    requires Small(xs) && Small(ys)
    ensures Leq(Normalized(v, parse), Normalized(w, parse)) <==> NumLeq(xs, ys)
  {
    DottedOrder(xs, ys);
  }

  /** The bound is sharp: a component of 1000 sorts before every component from 101 to 999. */
  lemma ThousandSortsLow(n: nat)
    requires 101 <= n < 1000
    ensures NumLeq([n], [1000]) && !Leq(Dotted([n]), Dotted([1000]))
  {
    OneComponent(n);
    OneComponent(1000);
    ThousandIsHundred();
    PaddedOrder(n, 100);
    Prefixed(Padded(n), "", Padded(100), "0");
    assert Padded(n) + "" == Padded(n);
  }

  lemma OneComponent(n: int)
    ensures Dotted([n]) == Padded(n)
  {
    assert PadAll([n]) == [Padded(n)] by {
      assert [n][1..] == [];
    }
  }

  lemma ThousandIsHundred()
    ensures Padded(1000) == Padded(100) + "0" && |Padded(100)| == 3
  {
    DigitsOfHundreds(100);
    assert 1000 / 10 == 100 && 1000 % 10 == 0;
    assert Digits(1000) == Digits(100) + [DIGITS[0]];
  }

  // ---- a version followed by other text, as in a sort key

  /** The number of leading components two versions share. */
  function Shared(xs: seq<int>, ys: seq<int>): (k: nat)
    ensures k <= |xs| && k <= |ys| && xs[..k] == ys[..k]
    ensures k < |xs| && k < |ys| ==> xs[k] != ys[k]
  {
    if xs == [] || ys == [] || xs[0] != ys[0] then 0 else 1 + Shared(xs[1..], ys[1..])
  }

  /**
   The order of two versions with text behind them: numeric at the first component that differs; where one
   version runs out first, its text is compared with the other's dot and further components.
   */
  predicate ThenText(xs: seq<int>, a: string, ys: seq<int>, b: string)
  {
    var k := Shared(xs, ys);
    if k < |xs| && k < |ys| then xs[k] < ys[k]
    else Leq(Further(xs, k) + a, Further(ys, k) + b)
  }

  /** What is left of a normal form behind its first `k` components. */
  function Further(ns: seq<int>, k: nat): string
    requires k <= |ns|
  {
    if k == |ns| then "" else "." + Dotted(ns[k..])
  }

  lemma PrefixesDecide(p: string, x: string, a: string, q: string, y: string, b: string)
    requires |p| == |q|
    ensures Leq(p + x + a, q + y + b) <==> Less(p, q) || (p == q && Leq(x + a, y + b))
  {
    assert p + x + a == p + (x + a) && q + y + b == q + (y + b);
    Prefixed(p, x + a, q, y + b);
  }

  lemma HeadThenText(xs: seq<int>, a: string, ys: seq<int>, b: string)
    requires xs != [] && ys != [] && Small(xs) && Small(ys)
    ensures Leq(Dotted(xs) + a, Dotted(ys) + b)
       <==> xs[0] < ys[0] || (xs[0] == ys[0] && Leq(Tail(xs) + a, Tail(ys) + b))
  {
    DottedHead(xs);
    DottedHead(ys);
    PaddedOrder(xs[0], ys[0]);
    PaddedOrder(ys[0], xs[0]);
    PrefixesDecide(Padded(xs[0]), Tail(xs), a, Padded(ys[0]), Tail(ys), b);
  }

  /** String order of normal forms with text behind them, for components 0..999 and any number of them. */
  lemma {:induction false} VersionThenText(xs: seq<int>, a: string, ys: seq<int>, b: string)
    requires xs != [] && ys != [] && Small(xs) && Small(ys)
    ensures Leq(Dotted(xs) + a, Dotted(ys) + b) <==> ThenText(xs, a, ys, b)
  {
    HeadThenText(xs, a, ys, b);
    if xs[0] == ys[0] {
      assert Tail(xs) == Further(xs, 1) && Tail(ys) == Further(ys, 1);
      if |xs| > 1 && |ys| > 1 {
        DottedHead(xs);
        DottedHead(ys);
        VersionThenText(xs[1..], a, ys[1..], b);
        DotsCancel(Dotted(xs[1..]), a, Dotted(ys[1..]), b);
        ShiftThenText(xs, a, ys, b);
      }
    }
  }

  lemma DotsCancel(x: string, a: string, y: string, b: string)
    ensures Leq("." + x + a, "." + y + b) <==> Leq(x + a, y + b)
  {
    assert "." + x + a == "." + (x + a) && "." + y + b == "." + (y + b);
    Prefixed(".", x + a, ".", y + b);
  }

  lemma ShiftThenText(xs: seq<int>, a: string, ys: seq<int>, b: string)
    requires |xs| > 1 && |ys| > 1 && xs[0] == ys[0]
    ensures ThenText(xs, a, ys, b) <==> ThenText(xs[1..], a, ys[1..], b)
  {
    var k := Shared(xs[1..], ys[1..]);
    assert Shared(xs, ys) == k + 1;
    assert xs[1..][k..] == xs[k + 1..] && ys[1..][k..] == ys[k + 1..];
  }

  /** A version comes before one that extends it exactly when its text is not above the dot that follows there. */
  lemma ExtendedVersion(xs: seq<int>, a: string, more: seq<int>, b: string)
    requires xs != [] && more != [] && Small(xs) && Small(more)
    ensures NumLeq(xs, xs + more)
    ensures Leq(Dotted(xs) + a, Dotted(xs + more) + b) <==> Leq(a, "." + Dotted(more) + b)
    ensures a != "" && a[0] > '.' ==> Less(Dotted(xs + more) + b, Dotted(xs) + a)
  {
    ExtensionLater(xs, more);
    VersionThenText(xs, a, xs + more, b);
    assert (xs + more)[..|xs|] == xs && (xs + more)[|xs|..] == more;
    SharedIsPrefix(xs, more);
    assert Further(xs, |xs|) + a == a;
    Total(Dotted(xs) + a, Dotted(xs + more) + b);
  }

  lemma {:induction false} ExtensionLater(xs: seq<int>, more: seq<int>)
    ensures NumLeq(xs, xs + more)
  {
    if xs != [] {
      assert (xs + more)[1..] == xs[1..] + more;
      ExtensionLater(xs[1..], more);
    }
  }

  lemma SharedIsPrefix(xs: seq<int>, more: seq<int>)
    ensures Shared(xs, xs + more) == |xs|
  {
    assert xs <= xs + more;
  }
}
