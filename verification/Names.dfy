/** Names of generated labels: an underscore, the construct's number, a letter, and
    for CASE elements a count. */
module Names {

  function Digit(d: nat): (c: char)
    requires d < 10
    ensures IsDigit(c) && c as int == '0' as int + d
  {
    ('0' as int + d) as char
  }

  predicate IsDigit(c: char) {
    '0' <= c <= '9'
  }

  /** str() of a natural number */
  function Decimal(n: nat): (s: string)
    ensures s != "" && forall i :: 0 <= i < |s| ==> IsDigit(s[i])
  {
    if n < 10 then [Digit(n)] else Decimal(n / 10) + [Digit(n % 10)]
  }

  /** Suffixes start with a letter. */
  predicate IsSuffix(s: string) {
    s != "" && !IsDigit(s[0])
  }

  function LabelName(n: nat, suffix: string): string {
    "_" + Decimal(n) + suffix
  }

  function CaseSuffix(k: nat): (s: string)
    ensures IsSuffix(s)
  {
    "C" + Decimal(k)
  }

  /** A name in generated form; user labels start with a letter or a digit. */
  predicate IsGenerated(name: string) {
    name != "" && name[0] == '_'
  }

  lemma DecimalLength(n: nat)
    ensures |Decimal(n)| == 1 <==> n < 10
  {
  }

  lemma {:induction false} DecimalInjective(a: nat, b: nat)
    requires Decimal(a) == Decimal(b)
    ensures a == b
    decreases a + b
  {
    var s, t := Decimal(a), Decimal(b);
    DecimalLength(a);
    DecimalLength(b);
    assert s[|s| - 1] == t[|t| - 1];
    if a >= 10 {
      assert s[..|s| - 1] == Decimal(a / 10) && t[..|t| - 1] == Decimal(b / 10);
      DecimalInjective(a / 10, b / 10);
    }
  }

  lemma DigitsEnd(p: string, s: string, q: string, t: string)
    requires p + s == q + t && IsSuffix(s)
    requires forall i :: 0 <= i < |q| ==> IsDigit(q[i])
    ensures |q| <= |p|
  {
    assert (p + s)[|p|] == s[0];
    assert forall i :: 0 <= i < |q| ==> IsDigit((q + t)[i]);
  }

  /** The digits end where the suffix begins, so a name determines its number and suffix. */
  lemma LabelNameInjective(a: nat, s: string, b: nat, t: string)
    requires IsSuffix(s) && IsSuffix(t)
    requires LabelName(a, s) == LabelName(b, t)
    ensures a == b && s == t
  {
    var p, q := Decimal(a), Decimal(b);
    assert p + s == LabelName(a, s)[1..] == LabelName(b, t)[1..] == q + t;
    DigitsEnd(p, s, q, t);
    DigitsEnd(q, t, p, s);
    assert p == (p + s)[..|p|] == (q + t)[..|q|] == q;
    assert s == (p + s)[|p|..] == (q + t)[|q|..] == t;
    DecimalInjective(a, b);
  }

  /** The labels behind the COMMON blocks */
  function ComLabel(i: nat): string {
    "_COM" + Decimal(i)
  }

  lemma ComLabelInjective(i: nat, j: nat)
    requires ComLabel(i) == ComLabel(j)
    ensures i == j
  {
    assert ComLabel(i)[4..] == Decimal(i) && ComLabel(j)[4..] == Decimal(j);
    DecimalInjective(i, j);
  }

  /** They are no label of a construct and none of the programmer's. */
  lemma ComLabelApart(i: nat, n: nat, s: string)
    ensures ComLabel(i) != LabelName(n, s) && IsGenerated(ComLabel(i))
  {
    var name := LabelName(n, s);
    assert name[1] == Decimal(n)[0];
    assert ComLabel(i)[1] == 'C';
  }

  lemma CaseSuffixInjective(j: nat, k: nat)
    requires CaseSuffix(j) == CaseSuffix(k)
    ensures j == k
  {
    assert CaseSuffix(j)[1..] == Decimal(j) && CaseSuffix(k)[1..] == Decimal(k);
    DecimalInjective(j, k);
  }
}
