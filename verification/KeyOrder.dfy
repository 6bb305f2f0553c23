/** Ordering rows by a key of several strings, and what sorting by it determines. */
module KeyOrder {
  import opened Texts

  // -------------------------------------------------------------- comparing two keys

  /** The first of the alternating pairs that differ decides. */
  function FirstDifference(pairs: seq<string>): bool {
    if |pairs| < 2 then false
    else if pairs[0] == pairs[1] then FirstDifference(pairs[2..])
    else Less(pairs[0], pairs[1])
  }

  method CompareStrings(pairs: seq<string>) returns (less: bool)
    ensures less == (|pairs| % 2 == 0 && FirstDifference(pairs))
  {
    if |pairs| % 2 != 0 {
      return false;
    }
    var index := 0;
    while index < |pairs|
      invariant index <= |pairs| && index % 2 == 0
      invariant FirstDifference(pairs) == FirstDifference(pairs[index..])
    {
      if pairs[index] != pairs[index + 1] {
        return Less(pairs[index], pairs[index + 1]);
      }
      assert pairs[index..][2..] == pairs[index + 2..];
      index := index + 2;
    }
    less := false;
  }

  type Key = seq<string>

  function Interleaved(a: Key, b: Key): (r: seq<string>)
    requires |a| == |b|
    ensures |r| == 2 * |a|
  {
    if a == [] then [] else [a[0], b[0]] + Interleaved(a[1..], b[1..])
  }

  predicate KeyLess(a: Key, b: Key) { |a| == |b| && FirstDifference(Interleaved(a, b)) }

  lemma KeyLessStep(a: Key, b: Key)
    requires |a| == |b| > 0
    ensures KeyLess(a, b) <==> if a[0] == b[0] then KeyLess(a[1..], b[1..]) else Less(a[0], b[0])
  {
    var pairs := Interleaved(a, b);
    assert pairs[2..] == Interleaved(a[1..], b[1..]);
  }

  /** On keys of one length the comparison is a strict total order. */
  lemma {:induction false} KeyTrichotomy(a: Key, b: Key)
    requires |a| == |b|
    ensures a == b || KeyLess(a, b) || KeyLess(b, a)
    ensures !(KeyLess(a, b) && KeyLess(b, a)) && (KeyLess(a, b) ==> a != b)
  {
    if a != [] {
      KeyLessStep(a, b);
      KeyLessStep(b, a);
      LessTrichotomy(a[0], b[0]);
      KeyTrichotomy(a[1..], b[1..]);
      assert a == [a[0]] + a[1..] && b == [b[0]] + b[1..];
    }
  }

  lemma {:induction false} KeyTransitive(a: Key, b: Key, c: Key)
    requires KeyLess(a, b) && KeyLess(b, c)
    ensures KeyLess(a, c)
  {
    if a != [] {
      KeyLessStep(a, b);
      KeyLessStep(b, c);
      KeyLessStep(a, c);
      if a[0] == b[0] && b[0] == c[0] {
        KeyTransitive(a[1..], b[1..], c[1..]);
      } else if a[0] != b[0] && b[0] != c[0] {
        LessTransitive(a[0], b[0], c[0]);
        LessTrichotomy(a[0], c[0]);
      }
    }
  }

  // ------------------------------------------------------------------- sorting by key

  ghost predicate SortedBy<T(!new)>(key: T -> Key, rows: seq<T>) {
    forall i, j | 0 <= i < j < |rows| :: !KeyLess(key(rows[j]), key(rows[i]))
  }

  ghost predicate UniqueKeys<T(!new)>(key: T -> Key, rows: seq<T>) {
    forall i, j | 0 <= i < j < |rows| :: key(rows[i]) != key(rows[j])
  }

  ghost predicate KeyLength<T(!new)>(key: T -> Key, n: nat) { forall t :: |key(t)| == n }

  lemma HeadsAgree<T(!new)>(key: T -> Key, n: nat, a: seq<T>, b: seq<T>)
    requires KeyLength(key, n) && multiset(a) == multiset(b) && a != [] && b != []
    requires SortedBy(key, a) && SortedBy(key, b) && UniqueKeys(key, a)
    ensures a[0] == b[0]
  {
    assert a[0] in multiset(b) && b[0] in multiset(a);
    var i :| 0 <= i < |b| && b[i] == a[0];
    var j :| 0 <= j < |a| && a[j] == b[0];
    KeyTrichotomy(key(a[0]), key(b[0]));
  }

  lemma SameSize<T>(a: seq<T>, b: seq<T>)
    requires multiset(a) == multiset(b)
    ensures |a| == |b|
  {
    assert |a| == |multiset(a)| == |multiset(b)| == |b|;
  }

  lemma SameTails<T>(a: seq<T>, b: seq<T>)
    requires multiset(a) == multiset(b) && a != [] && b != [] && a[0] == b[0]
    ensures multiset(a[1..]) == multiset(b[1..])
  {
    assert a == [a[0]] + a[1..] && b == [b[0]] + b[1..];
    assert multiset(a[1..]) == multiset(a) - multiset{a[0]} == multiset(b[1..]);
  }

  /** Rows with unique keys have one sorted order, however they are permuted. */
  lemma {:induction false} SortedUnique<T(!new)>(key: T -> Key, n: nat, a: seq<T>, b: seq<T>)
    requires KeyLength(key, n) && multiset(a) == multiset(b)
    requires SortedBy(key, a) && SortedBy(key, b) && UniqueKeys(key, a)
    ensures a == b
    decreases |a|
  {
    SameSize(a, b);
    if a != [] {
      HeadsAgree(key, n, a, b);
      SameTails(a, b);
      SortedUnique(key, n, a[1..], b[1..]);
      assert a == [a[0]] + a[1..] && b == [b[0]] + b[1..];
    }
  }

  /** Sorting in the order of one key. */
  method SortBy<T(!new)>(key: T -> Key, n: nat, rows: seq<T>) returns (r: seq<T>)
    requires KeyLength(key, n)
    ensures multiset(r) == multiset(rows) && SortedBy(key, r)
  {
    r := [];
    for i := 0 to |rows|
      invariant multiset(r) == multiset(rows[..i]) && SortedBy(key, r)
    {
      r := InsertBy(key, n, rows[i], r);
      assert rows[..i + 1] == rows[..i] + [rows[i]];
    }
    assert rows[..|rows|] == rows;
  }

  method InsertBy<T(!new)>(key: T -> Key, n: nat, x: T, s: seq<T>) returns (r: seq<T>)
    requires KeyLength(key, n) && SortedBy(key, s)
    ensures multiset(r) == multiset(s) + multiset{x} && SortedBy(key, r)
  {
    var k := |s|;
    while k > 0 && KeyLess(key(x), key(s[k - 1]))
      invariant 0 <= k <= |s| && forall j | k <= j < |s| :: KeyLess(key(x), key(s[j]))
    {
      k := k - 1;
    }
    r := s[..k] + [x] + s[k..];
    Spliced(s, k, x);
    InsertedSorted(key, n, x, s, k);
  }

  lemma Spliced<T>(s: seq<T>, k: nat, x: T)
    requires k <= |s|
    ensures multiset(s[..k] + [x] + s[k..]) == multiset(s) + multiset{x}
  {
    assert s == s[..k] + s[k..];
  }

  lemma InsertedSorted<T(!new)>(key: T -> Key, n: nat, x: T, s: seq<T>, k: nat)
    requires KeyLength(key, n) && SortedBy(key, s) && k <= |s|
    requires k == 0 || !KeyLess(key(x), key(s[k - 1]))
    requires forall j | k <= j < |s| :: KeyLess(key(x), key(s[j]))
    ensures SortedBy(key, s[..k] + [x] + s[k..])
  {
    forall j | k <= j < |s| ensures !KeyLess(key(s[j]), key(x)) { KeyTrichotomy(key(x), key(s[j])); }
    forall i | 0 <= i < k ensures !KeyLess(key(x), key(s[i])) {
      if i < k - 1 && KeyLess(key(x), key(s[i])) {
        KeyTrichotomy(key(s[i]), key(s[k - 1]));
        if key(s[i]) != key(s[k - 1]) { KeyTransitive(key(x), key(s[i]), key(s[k - 1])); }
      }
    }
    var r := s[..k] + [x] + s[k..];
    forall i, j | 0 <= i < j < |r| ensures !KeyLess(key(r[j]), key(r[i])) {
      assert r[i] == if i < k then s[i] else if i == k then x else s[i - 1];
      assert r[j] == if j < k then s[j] else if j == k then x else s[j - 1];
    }
  }

  // --------------------------------------------------------------- sorting plain texts

  predicate SortedTexts(s: seq<string>) { forall i, j | 0 <= i < j < |s| :: !Less(s[j], s[i]) }

  /** Texts have one sorted order, duplicates and all. */
  lemma {:induction false} SortedTextsUnique(a: seq<string>, b: seq<string>)
    requires multiset(a) == multiset(b) && SortedTexts(a) && SortedTexts(b)
    ensures a == b
    decreases |a|
  {
    SameSize(a, b);
    if a != [] {
      TextHeadsAgree(a, b);
      SameTails(a, b);
      SortedTextsUnique(a[1..], b[1..]);
      assert a == [a[0]] + a[1..] && b == [b[0]] + b[1..];
    }
  }

  lemma TextHeadsAgree(a: seq<string>, b: seq<string>)
    requires multiset(a) == multiset(b) && a != [] && b != [] && SortedTexts(a) && SortedTexts(b)
    ensures a[0] == b[0]
  {
    assert a[0] in multiset(b) && b[0] in multiset(a);
    var i :| 0 <= i < |b| && b[i] == a[0];
    var j :| 0 <= j < |a| && a[j] == b[0];
    LessTrichotomy(a[0], b[0]);
  }

  method SortTexts(texts: seq<string>) returns (r: seq<string>)
    ensures multiset(r) == multiset(texts) && SortedTexts(r)
  {
    r := SortBy((t: string) => [t], 1, texts);
    forall i, j | 0 <= i < j < |r| ensures !Less(r[j], r[i]) { OneText(r[j], r[i]); }
  }

  lemma OneText(a: string, b: string)
    ensures KeyLess([a], [b]) <==> Less(a, b)
  {
    KeyLessStep([a], [b]);
    LessTrichotomy(a, b);
    assert [a][1..] == [] && [b][1..] == [];
  }
}
