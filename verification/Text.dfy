/** Byte-wise lexicographic order of strings, the order of Go's `<` on strings. */
module Text {

  predicate Less(a: string, b: string) {
    if b == [] then false
    else if a == [] then true
    else a[0] < b[0] || (a[0] == b[0] && Less(a[1..], b[1..]))
  }

  /** The texts agree on their first n characters, after which a ends or has the smaller one. */
  predicate PartsAt(a: string, b: string, n: nat) {
    n < |b| && n <= |a| && a[..n] == b[..n] && (n == |a| || a[n] < b[n])
  }

  lemma LessMeans(a: string, b: string)
    ensures Less(a, b) <==> exists n :: PartsAt(a, b, n)
  {
    if Less(a, b) {
      var n := LessParts(a, b);
    }
    forall n | PartsAt(a, b, n) ensures Less(a, b) { PartsLess(a, b, n); }
  }

  lemma {:induction false} LessParts(a: string, b: string) returns (n: nat)
    requires Less(a, b)
    ensures PartsAt(a, b, n)
  {
    n := 0;
    if a != [] && a[0] == b[0] {
      var m := LessParts(a[1..], b[1..]);
      n := m + 1;
      assert a[..n] == [a[0]] + a[1..][..m] && b[..n] == [b[0]] + b[1..][..m];
    }
  }

  lemma {:induction false} PartsLess(a: string, b: string, n: nat)
    requires PartsAt(a, b, n)
    ensures Less(a, b)
  {
    if n != 0 {
      assert a[0] == a[..n][0] == b[..n][0] == b[0];
      assert a[1..][..n - 1] == a[..n][1..] && b[1..][..n - 1] == b[..n][1..];
      PartsLess(a[1..], b[1..], n - 1);
    }
  }

  lemma {:induction false} LessIrreflexive(a: string)
    ensures !Less(a, a)
  {
    if a != [] {
      LessIrreflexive(a[1..]);
    }
  }

  lemma {:induction false} LessTransitive(a: string, b: string, c: string)
    requires Less(a, b) && Less(b, c)
    ensures Less(a, c)
  {
    if a != [] && a[0] == b[0] == c[0] {
      LessTransitive(a[1..], b[1..], c[1..]);
    }
  }

  lemma {:induction false} LessTotal(a: string, b: string)
    ensures a == b || Less(a, b) || Less(b, a)
  {
    if a != [] && b != [] && a[0] == b[0] {
      LessTotal(a[1..], b[1..]);
      assert a == [a[0]] + a[1..] && b == [b[0]] + b[1..];
    }
  }

  /** The order as quantified facts, for use inside rank arguments. */
  lemma LessIsStrictTotal()
    ensures forall a: string :: !Less(a, a)
    ensures forall a, b, c: string :: Less(a, b) && Less(b, c) ==> Less(a, c)
    ensures forall a, b: string :: a != b ==> Less(a, b) || Less(b, a)
  {
    forall a: string ensures !Less(a, a) { LessIrreflexive(a); }
    forall a, b, c: string | Less(a, b) && Less(b, c) ensures Less(a, c) { LessTransitive(a, b, c); }
    forall a, b: string | a != b ensures Less(a, b) || Less(b, a) { LessTotal(a, b); }
  }
}
