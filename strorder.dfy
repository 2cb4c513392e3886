/**
  Byte-wise lexicographic order on names, the order Go uses when it compares
  two strings. A Dafny `char` stands for one code unit; for UTF-8 text the
  code-point order and the byte order agree.
*/
module StrOrder {

  /** Strict lexicographic order. */
  predicate Less(a: string, b: string)
  {
    if a == [] then b != []
    else if b == [] then false
    else a[0] < b[0] || (a[0] == b[0] && Less(a[1..], b[1..]))
  }

  predicate LessEq(a: string, b: string)
  {
    a == b || Less(a, b)
  }

  /** Three-way comparison: -1, 0 or 1. */
  function CompareStr(a: string, b: string): (r: int)
    ensures r == 0 <==> a == b
    ensures r == -1 <==> Less(a, b)
    ensures r == 1 <==> Less(b, a)
  {
    Trichotomy(a, b);
    Irreflexive(a);
    Asymmetric(a, b);
    if Less(a, b) then -1 else if a == b then 0 else 1
  }

  lemma {:induction false} Irreflexive(a: string)
    ensures !Less(a, a)
  {
    if a != [] {
      Irreflexive(a[1..]);
    }
  }

  lemma {:induction false} Asymmetric(a: string, b: string)
    ensures !(Less(a, b) && Less(b, a))
  {
    if a != [] && b != [] && a[0] == b[0] {
      Asymmetric(a[1..], b[1..]);
    }
  }

  lemma {:induction false} Trichotomy(a: string, b: string)
    ensures Less(a, b) || a == b || Less(b, a)
  {
    if a != [] && b != [] && a[0] == b[0] {
      Trichotomy(a[1..], b[1..]);
      if a[1..] == b[1..] {
        assert a == [a[0]] + a[1..] && b == [b[0]] + b[1..];
      }
    }
  }

  lemma {:induction false} Transitive(a: string, b: string, c: string)
    requires Less(a, b) && Less(b, c)
    ensures Less(a, c)
  {
    if a != [] && a[0] == b[0] && b[0] == c[0] {
      Transitive(a[1..], b[1..], c[1..]);
    }
  }

  /** LessEq is a total preorder (in fact a total order). */
  lemma LessEqTotal(a: string, b: string)
    ensures LessEq(a, b) || LessEq(b, a)
  {
    Trichotomy(a, b);
  }

  lemma LessEqTransitive(a: string, b: string, c: string)
    requires LessEq(a, b) && LessEq(b, c)
    ensures LessEq(a, c)
  {
    if a != b && b != c {
      Transitive(a, b, c);
    }
  }

  lemma LessEqAntisymmetric(a: string, b: string)
    requires LessEq(a, b) && LessEq(b, a)
    ensures a == b
  {
    Asymmetric(a, b);
  }

  /** A common prefix does not change the order. */
  lemma {:induction false} LessCommonPrefix(p: string, a: string, b: string)
    ensures Less(p + a, p + b) <==> Less(a, b)
  {
    if p != [] {
      assert (p + a)[1..] == p[1..] + a;
      assert (p + b)[1..] == p[1..] + b;
      LessCommonPrefix(p[1..], a, b);
    } else {
      assert p + a == a && p + b == b;
    }
  }
}
