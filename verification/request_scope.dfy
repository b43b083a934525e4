/** The identity each call of a batched request gets. */
module RequestScope {
  import opened Common

  function Decimal(n: nat): string {
    if n < 10 then [DigitOf(n)] else Decimal(n / 10) + [DigitOf(n % 10)]
  }

  function DigitOf(d: nat): (c: char)
    requires d < 10
    ensures d as int == c as int - '0' as int
  {
    '0' + d as char
  }

  function ScopeRequestId(base: string, path: string, batchIndex: nat): string {
    base + ":" + path + Suffix(batchIndex)
  }

  lemma {:induction false} DecimalInjective(m: nat, n: nat)
    requires Decimal(m) == Decimal(n)
    ensures m == n
  {
    var a, b := Decimal(m), Decimal(n);
    assert a[|a| - 1] == DigitOf(m % 10) && b[|b| - 1] == DigitOf(n % 10);
    DecimalNotEmpty(m / 10);
    DecimalNotEmpty(n / 10);
    if m >= 10 && n >= 10 {
      assert Decimal(m / 10) == a[..|a| - 1] && Decimal(n / 10) == b[..|b| - 1];
      DecimalInjective(m / 10, n / 10);
    }
  }

  lemma DecimalNotEmpty(n: nat)
    ensures |Decimal(n)| >= 1
  {
  }

  lemma SameRest(base: string, p: string, q: string)
    requires base + ":" + p == base + ":" + q
    ensures p == q
  {
    assert (base + ":" + p)[|base| + 1..] == p;
    assert (base + ":" + q)[|base| + 1..] == q;
  }

  predicate Plain(path: string) {
    ':' !in path
  }

  function Suffix(batchIndex: nat): string {
    if batchIndex == 0 then "" else BATCH + Decimal(batchIndex)
  }

  lemma {:induction false} DecimalIsPlain(n: nat)
    ensures Plain(Decimal(n))
  {
    if n >= 10 {
      DecimalIsPlain(n / 10);
    }
  }

  /** What follows the last colon of a text. */
  function Tail(text: string): string {
    if text == "" || text[|text| - 1] == ':' then "" else Tail(text[..|text| - 1]) + [text[|text| - 1]]
  }

  lemma {:induction false} TailAfterColon(text: string, plain: string)
    requires text != "" && text[|text| - 1] == ':' && Plain(plain)
    ensures Tail(text + plain) == plain
  {
    if plain == "" {
      assert text + plain == text;
    } else {
      var n := |plain| - 1;
      assert plain[n] in plain;
      TailAfterColon(text, plain[..n]);
      assert (text + plain)[..|text + plain| - 1] == text + plain[..n];
      assert plain[..n] + [plain[n]] == plain;
    }
  }

  const BATCH := ":batch:"

  lemma SuffixTail(path: string, i: nat)
    requires i > 0
    ensures Suffix(i) == BATCH + Decimal(i) && Tail(path + Suffix(i)) == Decimal(i)
  {
    DecimalIsPlain(i);
    Regroup(path, BATCH, Decimal(i));
    TailAfterColon(path + BATCH, Decimal(i));
  }

  /** Two batched calls share an identity only if they are the same call. */
  lemma BatchedDistinct(p: string, i: nat, q: string, j: nat)
    requires i > 0 && j > 0 && p + Suffix(i) == q + Suffix(j)
    ensures p == q && i == j
  {
    SuffixTail(p, i);
    SuffixTail(q, j);
    DecimalInjective(i, j);
    SameEnd(p, q, Suffix(i));
  }

  lemma SameEnd(p: string, q: string, end: string)
    requires p + end == q + end
    ensures p == q
  {
    assert p == (p + end)[..|p|] && q == (q + end)[..|q|];
  }

  /** Exactly when two calls share an identity: they are the same call, or the first call of a
      batch has the path of another one together with its batch suffix. */
  lemma SameScopeIff(base: string, p: string, i: nat, q: string, j: nat)
    ensures ScopeRequestId(base, p, i) == ScopeRequestId(base, q, j)
      <==> (p == q && i == j) || (i == 0 && j > 0 && p == q + Suffix(j)) || (j == 0 && i > 0 && q == p + Suffix(i))
  {
    var s, t := Suffix(i), Suffix(j);
    Regroup(base + ":", p, s);
    Regroup(base + ":", q, t);
    if ScopeRequestId(base, p, i) == ScopeRequestId(base, q, j) {
      SameRest(base, p + s, q + t);
      if i > 0 && j > 0 {
        BatchedDistinct(p, i, q, j);
      }
    }
    assert p + "" == p && q + "" == q;
  }

  /** In particular calls of one batch never share an identity while procedure paths hold no colon. */
  lemma ScopesAreDistinct(base: string, p: string, i: nat, q: string, j: nat)
    requires Plain(p) && Plain(q)
    ensures ScopeRequestId(base, p, i) == ScopeRequestId(base, q, j) <==> p == q && i == j
  {
    SameScopeIff(base, p, i, q, j);
    assert j > 0 ==> ':' in q + Suffix(j) by { assert j > 0 ==> (q + Suffix(j))[|q|] == ':'; }
    assert i > 0 ==> ':' in p + Suffix(i) by { assert i > 0 ==> (p + Suffix(i))[|p|] == ':'; }
  }

  lemma Regroup(a: string, b: string, c: string)
    ensures a + b + c == a + (b + c)
  {
  }
}
