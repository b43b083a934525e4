/** Orders on strings that the program sorts by. */
module KeyOrder {

  /** Code-unit order, the `<` of the program's comparators. */
  predicate StringLess(a: string, b: string) {
    if b == [] then false
    else if a == [] then true
    else a[0] < b[0] || (a[0] == b[0] && StringLess(a[1..], b[1..]))
  }

  lemma {:induction false} StringLessTransitive(a: string, b: string, c: string)
    requires StringLess(a, b) && StringLess(b, c)
    ensures StringLess(a, c)
  {
    if a != [] && a[0] == b[0] && b[0] == c[0] {
      StringLessTransitive(a[1..], b[1..], c[1..]);
    }
  }

  /** Any two distinct strings are ordered, in exactly one direction. */
  lemma {:induction false} StringLessTrichotomy(a: string, b: string)
    ensures StringLess(a, b) || a == b || StringLess(b, a)
    ensures !(StringLess(a, b) && StringLess(b, a))
    ensures a == b ==> !StringLess(a, b)
  {
    if a != [] && b != [] {
      StringLessTrichotomy(a[1..], b[1..]);
      if a[1..] == b[1..] && a[0] == b[0] {
        assert a == [a[0]] + a[1..] == b;
      }
    }
  }

  predicate Digits(s: string) {
    forall i :: 0 <= i < |s| ==> '0' <= s[i] <= '9'
  }

  /** The property keys that an ECMAScript object enumerates first, in numeric order. */
  predicate ArrayIndex(s: string) {
    && s != []
    && Digits(s)
    && (s[0] == '0' ==> |s| == 1)
    && (|s| < 10 || (|s| == 10 && (s == "4294967294" || StringLess(s, "4294967294"))))
  }

  /** Enumeration order of an object whose entries were inserted in code-unit order. */
  predicate PropertyLess(a: string, b: string) {
    if ArrayIndex(a) && ArrayIndex(b) then |a| < |b| || (|a| == |b| && StringLess(a, b))
    else if ArrayIndex(a) then true
    else if ArrayIndex(b) then false
    else StringLess(a, b)
  }

  lemma PropertyLessTransitive(a: string, b: string, c: string)
    requires PropertyLess(a, b) && PropertyLess(b, c)
    ensures PropertyLess(a, c)
  {
    if StringLess(a, b) && StringLess(b, c) {
      StringLessTransitive(a, b, c);
    }
  }

  lemma PropertyLessTrichotomy(a: string, b: string)
    ensures PropertyLess(a, b) || a == b || PropertyLess(b, a)
    ensures !(PropertyLess(a, b) && PropertyLess(b, a))
    ensures a == b ==> !PropertyLess(a, b)
  {
    StringLessTrichotomy(a, b);
  }
}
