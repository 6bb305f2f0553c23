/** Sequences and strings: regrouping, order, sorting, repetition, and decimal numbers. */
module Texts {
  import opened Wrappers

  /** Strictly before, character by character; a proper prefix comes first. */
  predicate Less(a: string, b: string) {
    b != [] && (a == [] || a[0] < b[0] || (a[0] == b[0] && Less(a[1..], b[1..])))
  }

  lemma {:induction false} LessTrichotomy(a: string, b: string)
    ensures a == b || Less(a, b) || Less(b, a)
    ensures !(Less(a, b) && Less(b, a)) && (Less(a, b) ==> a != b)
  {
    if a != [] && b != [] && a[0] == b[0] {
      assert a == [a[0]] + a[1..] && b == [b[0]] + b[1..];
      LessTrichotomy(a[1..], b[1..]);
    }
  }

  lemma {:induction false} LessTransitive(a: string, b: string, c: string)
    requires Less(a, b) && Less(b, c)
    ensures Less(a, c)
  {
    if a != [] && a[0] == b[0] && b[0] == c[0] {
      LessTransitive(a[1..], b[1..], c[1..]);
    }
  }

  /** Strictly increasing, so without duplicates. */
  predicate Increasing(s: seq<string>) {
    forall i, j | 0 <= i < j < |s| :: Less(s[i], s[j])
  }

  function Elements<T>(s: seq<T>): set<T> { set x | x in s }

  lemma ElementsPlus<T>(s: seq<T>, x: T)
    ensures Elements(s + [x]) == Elements(s) + {x}
  {
  }

  lemma Regroup<T>(x: seq<T>, y: seq<T>, z: seq<T>)
    ensures x + y + z == x + (y + z)
  {
  }

  predicate NoRepeats(s: seq<string>) { forall i, j | 0 <= i < j < |s| :: s[i] != s[j] }

  function Insert(x: string, s: seq<string>): (r: seq<string>)
    requires Increasing(s)
    ensures Increasing(r) && Elements(r) == Elements(s) + {x}
  {
    if s == [] then [x]
    else if x == s[0] then s
    else if Less(x, s[0]) then
      InFront(x, s);
      [x] + s
    else
      var r := Insert(x, s[1..]);
      Behind(x, s, r);
      [s[0]] + r
  }

  lemma InFront(x: string, s: seq<string>)
    requires Increasing(s) && s != [] && Less(x, s[0])
    ensures Increasing([x] + s) && Elements([x] + s) == Elements(s) + {x}
  {
    forall j | 0 <= j < |s| ensures Less(x, s[j]) {
      if j > 0 { LessTransitive(x, s[0], s[j]); }
    }
  }

  lemma Behind(x: string, s: seq<string>, r: seq<string>)
    requires s != [] && Increasing(s) && x != s[0] && !Less(x, s[0])
    requires Increasing(r) && Elements(r) == Elements(s[1..]) + {x}
    ensures Increasing([s[0]] + r) && Elements([s[0]] + r) == Elements(s) + {x}
  {
    LessTrichotomy(x, s[0]);
    assert s == [s[0]] + s[1..];
    forall j | 0 <= j < |r| ensures Less(s[0], r[j]) {
      assert r[j] in Elements(r);
    }
    forall y ensures y in Elements([s[0]] + r) <==> y in Elements(s) + {x} {
      assert y in r <==> y in Elements(s[1..]) + {x};
      assert y in Elements(s) <==> y == s[0] || y in Elements(s[1..]);
      assert y in [s[0]] + r <==> y == s[0] || y in r;
    }
  }

  /** The distinct elements of s, in increasing order. */
  function SortedDistinct(s: seq<string>): (r: seq<string>)
    ensures Increasing(r) && Elements(r) == Elements(s)
  {
    if s == [] then []
    else
      assert s == [s[0]] + s[1..];
      Insert(s[0], SortedDistinct(s[1..]))
  }

  lemma NoElements(s: seq<string>)
    ensures s == [] <==> Elements(s) == {}
  {
    if s != [] { assert s[0] in Elements(s); }
  }

  /** An increasing list is determined by its elements. */
  lemma {:induction false} IncreasingUnique(s: seq<string>, t: seq<string>)
    requires Increasing(s) && Increasing(t) && Elements(s) == Elements(t)
    ensures s == t
  {
    NoElements(s);
    NoElements(t);
    if s != [] {
      HeadIsLeast(s, t);
      HeadIsLeast(t, s);
      LessTrichotomy(s[0], t[0]);
      assert s == [s[0]] + s[1..] && t == [t[0]] + t[1..];
      TailElements(s);
      TailElements(t);
      IncreasingUnique(s[1..], t[1..]);
    }
  }

  lemma HeadIsLeast(s: seq<string>, t: seq<string>)
    requires Increasing(s) && Increasing(t) && s != [] && t != [] && Elements(s) == Elements(t)
    ensures s[0] == t[0] || Less(t[0], s[0])
  {
    assert s[0] in Elements(t);
  }

  lemma TailElements(s: seq<string>)
    requires Increasing(s) && s != []
    ensures Elements(s[1..]) == Elements(s) - {s[0]}
  {
    assert s == [s[0]] + s[1..];
    forall j | 0 < j < |s| ensures s[j] != s[0] { LessTrichotomy(s[0], s[j]); }
  }

  lemma {:induction false} SortedExists(xs: set<string>) returns (r: seq<string>)
    ensures Increasing(r) && Elements(r) == xs
  {
    if xs == {} {
      r := [];
    } else {
      var x :| x in xs;
      r := SortedExists(xs - {x});
      r := Insert(x, r);
    }
  }

  ghost predicate Lists(r: seq<string>, xs: set<string>) { Increasing(r) && Elements(r) == xs }

  lemma SomeListing(xs: set<string>)
    ensures exists r :: Lists(r, xs)
  {
    var r := SortedExists(xs);
    assert Lists(r, xs);
  }

  /** The elements of a set in increasing order. */
  ghost function Sorted(xs: set<string>): (r: seq<string>)
    ensures Increasing(r) && Elements(r) == xs
  {
    SomeListing(xs);
    var r :| Lists(r, xs);
    r
  }

  lemma SortedIs(s: seq<string>)
    ensures SortedDistinct(s) == Sorted(Elements(s))
  {
    IncreasingUnique(SortedDistinct(s), Sorted(Elements(s)));
  }

  // -------------------------------------------------------------------- decimal numbers

  function Digit(d: nat): char
    requires d < 10
  {
    (d + 48) as char
  }

  function Decimal(n: nat): (s: string)
    ensures s != []
  {
    if n < 10 then [Digit(n)] else Decimal(n / 10) + [Digit(n % 10)]
  }

  predicate IsDigit(c: char) { '0' <= c <= '9' }

  function Value(s: string): nat
    requires forall c <- s :: IsDigit(c)
  {
    if s == [] then 0
    else
      var last := s[|s| - 1];
      assert last in s && IsDigit(last);
      10 * Value(s[..|s| - 1]) + (last as int - 48)
  }

  /** Digits without a leading zero, as an array index is written (RFC 6901, section 4). */
  function ParseIndex(s: string): Option<nat> {
    if s != [] && (forall c <- s :: IsDigit(c)) && (|s| == 1 || s[0] != '0') then Some(Value(s)) else None
  }

  lemma {:induction false} DecimalDigits(n: nat)
    ensures forall c <- Decimal(n) :: IsDigit(c)
    ensures Value(Decimal(n)) == n && (n > 0 ==> Decimal(n)[0] != '0')
  {
    if n >= 10 {
      DecimalDigits(n / 10);
      assert Decimal(n)[..|Decimal(n)| - 1] == Decimal(n / 10);
    }
  }

  lemma ParseDecimal(n: nat)
    ensures ParseIndex(Decimal(n)) == Some(n)
  {
    DecimalDigits(n);
  }
}
