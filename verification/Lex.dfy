/** Plain string comparison: by code point, a proper prefix first. */
module Lex {

  predicate Leq(a: string, b: string)
  {
    a == "" || (b != "" && (a[0] < b[0] || (a[0] == b[0] && Leq(a[1..], b[1..]))))
  }

  predicate Less(a: string, b: string)
  {
    Leq(a, b) && a != b
  }

  lemma {:induction false} Total(a: string, b: string)
    ensures Leq(a, b) || Leq(b, a)
    ensures Leq(a, b) && Leq(b, a) ==> a == b
    ensures Leq(a, a)
  {
    if a != "" {
      Total(a[1..], a[1..]);
      if b != "" {
        Total(a[1..], b[1..]);
        assert a == [a[0]] + a[1..] && b == [b[0]] + b[1..];
      }
    }
  }

  lemma {:induction false} Transitive(a: string, b: string, c: string)
    requires Leq(a, b) && Leq(b, c)
    ensures Leq(a, c)
  {
    if a != "" && a[0] == b[0] == c[0] {
      Transitive(a[1..], b[1..], c[1..]);
    }
  }

  /** Behind prefixes of one length the prefixes decide, and only equal prefixes leave it to the rest. */
  lemma {:induction false} Prefixed(a: string, x: string, b: string, y: string)
    requires |a| == |b|
    ensures Leq(a + x, b + y) <==> Less(a, b) || (a == b && Leq(x, y))
  {
    if a == "" {
      assert a + x == x && b + y == y;
    } else {
      assert (a + x)[1..] == a[1..] + x && (b + y)[1..] == b[1..] + y;
      assert a == [a[0]] + a[1..] && b == [b[0]] + b[1..];
      Prefixed(a[1..], x, b[1..], y);
    }
  }
}
