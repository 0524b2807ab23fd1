/** The order in which text identifiers are compared and sorted. */
module Text {

  /** Lexicographic order by code point. */
  predicate AtMost(a: string, b: string) {
    a == [] || (b != [] && (a[0] < b[0] || (a[0] == b[0] && AtMost(a[1..], b[1..]))))
  }

  predicate Less(a: string, b: string) {
    a != b && AtMost(a, b)
  }

  lemma {:induction false} Reflexive(a: string)
    ensures AtMost(a, a)
  {
    if a != [] { Reflexive(a[1..]); }
  }

  lemma {:induction false} Total(a: string, b: string)
    ensures AtMost(a, b) || AtMost(b, a)
  {
    if a != [] && b != [] { Total(a[1..], b[1..]); }
  }

  lemma {:induction false} Antisymmetric(a: string, b: string)
    requires AtMost(a, b) && AtMost(b, a)
    ensures a == b
  {
    if a != [] && b != [] {
      Antisymmetric(a[1..], b[1..]);
      assert a == [a[0]] + a[1..] && b == [b[0]] + b[1..];
    }
  }

  lemma {:induction false} Transitive(a: string, b: string, c: string)
    requires AtMost(a, b) && AtMost(b, c)
    ensures AtMost(a, c)
  {
    if a != [] && a[0] == b[0] && b[0] == c[0] { Transitive(a[1..], b[1..], c[1..]); }
  }

  /** A text comes first if it begins the other, or has the smaller character where they first differ. */
  lemma {:induction false} ComesFirst(a: string, b: string)
    ensures Less(a, b) <==> AtMost(a, b) && a != b
    ensures AtMost(a, b) <==> a <= b || exists n: nat :: n < |a| && n < |b| && a[..n] == b[..n] && a[n] < b[n]
  {
    if a != [] && b != [] && a[0] == b[0] {
      var x, y := a[1..], b[1..];
      ComesFirst(x, y);
      if x <= y { assert a == [a[0]] + x && b == [b[0]] + y && b[..|a|] == [b[0]] + y[..|x|]; }
      if n: nat :| n < |x| && n < |y| && x[..n] == y[..n] && x[n] < y[n] {
        assert a[..n + 1] == [a[0]] + x[..n] && b[..n + 1] == [b[0]] + y[..n] && a[n + 1] < b[n + 1];
      }
      if a <= b { assert x <= y; }
      if n: nat :| n < |a| && n < |b| && a[..n] == b[..n] && a[n] < b[n] {
        assert n > 0;
        assert x[..n - 1] == a[..n][1..] && y[..n - 1] == b[..n][1..] && x[n - 1] < y[n - 1];
      }
    } else if a != [] && b != [] && a[0] < b[0] {
      assert a[..0] == b[..0];
    } else if a != [] && b != [] {
      FirstDiffers(a, b);
    }
  }

  lemma FirstDiffers(a: string, b: string)
    requires a != [] && b != [] && a[0] != b[0]
    ensures forall n: nat :: 0 < n <= |a| && n <= |b| ==> a[..n] != b[..n]
  {
    forall n: nat | 0 < n <= |a| && n <= |b| ensures a[..n] != b[..n] {
      assert a[..n][0] == a[0] && b[..n][0] == b[0];
    }
  }

  ghost predicate IsLeast(m: string, s: set<string>) {
    m in s && forall x :: x in s ==> AtMost(m, x)
  }

  /** The first element of the sorted set. */
  method Least(s: set<string>) returns (m: string)
    requires s != {}
    ensures IsLeast(m, s)
  {
    m :| m in s;
    Reflexive(m);
    var todo := s - {m};
    while todo != {}
      invariant todo <= s && IsLeast(m, s - todo)
      decreases |todo|
    {
      var x :| x in todo;
      Total(m, x);
      Reflexive(x);
      if !AtMost(m, x) {
        forall y | y in s - todo ensures AtMost(x, y) { Transitive(x, m, y); }
        m := x;
      }
      todo := todo - {x};
    }
  }

  /** The characters that stripping a text removes. */
  predicate WhiteSpace(c: char) {
    var n := c as int;
    || 0x09 <= n <= 0x0D || 0x1C <= n <= 0x20 || n == 0x85 || n == 0xA0 || n == 0x1680 || 0x2000 <= n <= 0x200A
    || n == 0x2028 || n == 0x2029 || n == 0x202F || n == 0x205F || n == 0x3000
  }

  predicate Blank(text: string) {
    forall c :: c in text ==> WhiteSpace(c)
  }

  /** The characters that count as white space, one by one. */
  lemma WhiteSpaceIs(c: char)
    ensures WhiteSpace(c) <==> c as int in {
              9, 10, 11, 12, 13, 28, 29, 30, 31, 32, 133, 160, 5760, 8192, 8193, 8194, 8195, 8196, 8197, 8198, 8199, 8200,
              8201, 8202, 8232, 8233, 8239, 8287, 12288}
    ensures forall text :: Blank(text) <==> forall i :: 0 <= i < |text| ==> WhiteSpace(text[i])
  {
    forall text: string ensures Blank(text) <==> forall i :: 0 <= i < |text| ==> WhiteSpace(text[i]) {
      assert forall i :: 0 <= i < |text| ==> text[i] in text;
    }
  }
}
