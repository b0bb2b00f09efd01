/** Python's order on strings: by code point, a prefix before its extensions. */
module Text {

  predicate Less(a: string, b: string) {
    b != "" && (a == "" || a[0] < b[0] || (a[0] == b[0] && Less(a[1..], b[1..])))
  }

  /** a and b agree up to place n, where a is at its end or has the smaller character. */
  predicate FirstDiffer(a: string, b: string, n: nat) {
    && n <= |a| && n < |b| && a[..n] == b[..n]
    && (n == |a| || a[n] < b[n])
  }

  lemma {:induction false} LessIsLexicographic(a: string, b: string)
    ensures Less(a, b) <==> exists n :: FirstDiffer(a, b, n)
  {
    if b != "" && (a == "" || a[0] < b[0]) {
      assert FirstDiffer(a, b, 0);
    } else if b != "" && a[0] == b[0] {
      LessIsLexicographic(a[1..], b[1..]);
      assert a == [a[0]] + a[1..] && b == [b[0]] + b[1..];
      if m: nat :| FirstDiffer(a[1..], b[1..], m) {
        assert a[..m + 1] == [a[0]] + a[1..][..m] && b[..m + 1] == [b[0]] + b[1..][..m];
        assert FirstDiffer(a, b, m + 1);
      }
      if n: nat :| FirstDiffer(a, b, n) {
        assert n > 0 && a[1..][..n - 1] == a[..n][1..] && b[1..][..n - 1] == b[..n][1..];
        assert FirstDiffer(a[1..], b[1..], n - 1);
      }
    } else if b != "" {
      assert forall n: nat :: FirstDiffer(a, b, n) ==> n == 0 || a[..n][0] == b[..n][0];
    }
  }

  lemma {:induction false} LessTotal(a: string, b: string)
    ensures a == b || Less(a, b) || Less(b, a)
  {
    if a != "" && b != "" && a[0] == b[0] {
      LessTotal(a[1..], b[1..]);
      assert a == [a[0]] + a[1..] && b == [b[0]] + b[1..];
    }
  }

  lemma {:induction false} LessAsymmetric(a: string, b: string)
    requires Less(a, b)
    ensures !Less(b, a) && a != b
  {
    if a != "" && a[0] == b[0] {
      LessAsymmetric(a[1..], b[1..]);
    }
  }

  lemma {:induction false} LessTransitive(a: string, b: string, c: string)
    requires Less(a, b) && Less(b, c)
    ensures Less(a, c)
  {
    if a != "" && a[0] == b[0] == c[0] {
      LessTransitive(a[1..], b[1..], c[1..]);
    }
  }

  /** A sort key `(created_at, id)`. */
  datatype Stamp = Stamp(createdAt: string, id: string)

  predicate Before(a: Stamp, b: Stamp) {
    Less(a.createdAt, b.createdAt) || (a.createdAt == b.createdAt && Less(a.id, b.id))
  }

  lemma BeforeTotal(a: Stamp, b: Stamp)
    ensures a == b || Before(a, b) || Before(b, a)
  {
    LessTotal(a.createdAt, b.createdAt);
    LessTotal(a.id, b.id);
  }

  lemma BeforeAsymmetric(a: Stamp, b: Stamp)
    requires Before(a, b)
    ensures !Before(b, a) && a != b
  {
    if Less(a.createdAt, b.createdAt) {
      LessAsymmetric(a.createdAt, b.createdAt);
    } else {
      LessAsymmetric(a.id, b.id);
      NotLessItself(a.createdAt);
    }
  }

  lemma {:induction false} NotLessItself(a: string)
    ensures !Less(a, a)
  {
    if a != "" {
      NotLessItself(a[1..]);
    }
  }

  lemma BeforeTransitive(a: Stamp, b: Stamp, c: Stamp)
    requires Before(a, b) && Before(b, c)
    ensures Before(a, c)
  {
    if Less(a.createdAt, b.createdAt) && Less(b.createdAt, c.createdAt) {
      LessTransitive(a.createdAt, b.createdAt, c.createdAt);
    }
    if Less(a.id, b.id) && Less(b.id, c.id) {
      LessTransitive(a.id, b.id, c.id);
    }
  }
}
