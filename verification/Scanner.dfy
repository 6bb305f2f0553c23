/** The writer that scans a stream for credentials chunk by chunk, carrying the end
    of what it has seen into the next chunk. */
module Scanner {
  import opened Wrappers

  /** Each character stands for one byte. */
  type Bytes = string

  /** Whether a text looks like it holds a credential. */
  type Detector = Bytes -> bool

  const OVERLAP := 256

  // ----------------------------------------------------------------------- the scan

  function Tail(s: Bytes): Bytes { if |s| <= OVERLAP then s else s[|s| - OVERLAP..] }

  function Concat(chunks: seq<Bytes>): Bytes {
    if chunks == [] then [] else Concat(chunks[..|chunks| - 1]) + chunks[|chunks| - 1]
  }

  /** The tail after scanning the chunks one after another; none once something was detected. */
  function Scan(dirty: Detector, chunks: seq<Bytes>): Option<Bytes> {
    if chunks == [] then Some([])
    else
      var tail := Scan(dirty, chunks[..|chunks| - 1]);
      if tail.None? then None
      else
        var window := tail.value + chunks[|chunks| - 1];
        if dirty(window) then None else Some(Tail(window))
  }

  /** The chunks are accepted exactly when the whole of them is clean. */
  predicate ExactOn(dirty: Detector, chunks: seq<Bytes>) { Scan(dirty, chunks).Some? <==> !dirty(Concat(chunks)) }

  lemma ScanOne(dirty: Detector, chunks: seq<Bytes>, data: Bytes)
    ensures Concat(chunks + [data]) == Concat(chunks) + data
    ensures Scan(dirty, chunks).None? ==> Scan(dirty, chunks + [data]).None?
    ensures Scan(dirty, chunks).Some? ==>
              (var window := Scan(dirty, chunks).value + data;
               Scan(dirty, chunks + [data]) == if dirty(window) then None else Some(Tail(window)))
  {
    assert (chunks + [data])[..|chunks|] == chunks;
  }

  lemma TailOfTail(seen: Bytes, data: Bytes)
    ensures Tail(Tail(seen) + data) == Tail(seen + data)
  {
  }

  // ------------------------------------------------------------- which detectors it suits

  /** What a detector must be for the overlap to suffice: it finds nothing in nothing,
      what it finds it still finds when more follows, and after a clean part its verdict
      depends on no more than the tail. */
  ghost predicate Coherent(dirty: Detector) {
    !dirty([]) && (forall a, b :: dirty(a) ==> dirty(a + b)) &&
    forall a, b :: !dirty(a) ==> (dirty(Tail(a) + b) <==> dirty(a + b))
  }

  lemma {:induction false} CoherentScan(dirty: Detector, chunks: seq<Bytes>)
    requires Coherent(dirty)
    ensures ExactOn(dirty, chunks)
    ensures Scan(dirty, chunks).Some? ==> Scan(dirty, chunks).value == Tail(Concat(chunks))
  {
    if chunks != [] {
      var front, data := chunks[..|chunks| - 1], chunks[|chunks| - 1];
      CoherentScan(dirty, front);
      TailOfTail(Concat(front), data);
    }
  }

  lemma TwoChunks(dirty: Detector, a: Bytes, b: Bytes)
    ensures Concat([]) == [] && Scan(dirty, []) == Some([])
    ensures Concat([a, b]) == a + b
    ensures Scan(dirty, [a, b]).None? <==> dirty(a) || dirty(Tail(a) + b)
  {
    ScanOne(dirty, [], a);
    ScanOne(dirty, [a], b);
    assert [] + [a] == [a] && [a] + [b] == [a, b] && [] + a == a;
  }

  /** The scan is exact under every chunking if and only if the detector is coherent. */
  lemma ExactIffCoherent(dirty: Detector)
    ensures (forall chunks :: ExactOn(dirty, chunks)) <==> Coherent(dirty)
  {
    if Coherent(dirty) {
      forall chunks ensures ExactOn(dirty, chunks) { CoherentScan(dirty, chunks); }
    }
    if forall chunks :: ExactOn(dirty, chunks) {
      TwoChunks(dirty, [], []);
      assert ExactOn(dirty, []);
      forall a, b
        ensures dirty(a) ==> dirty(a + b)
        ensures !dirty(a) ==> (dirty(Tail(a) + b) <==> dirty(a + b))
      {
        TwoChunks(dirty, a, b);
        assert ExactOn(dirty, [a, b]);
      }
    }
  }

  // ---------------------------------------------------------------------- literal texts

  predicate OccursAt(p: Bytes, s: Bytes, i: nat) { i + |p| <= |s| && s[i..i + |p|] == p }

  predicate Occurs(p: Bytes, s: Bytes) { exists i | 0 <= i <= |s| :: OccursAt(p, s, i) }

  /** Some forbidden text occurs. */
  predicate Dirty(texts: set<Bytes>, s: Bytes) { exists p <- texts :: Occurs(p, s) }

  function Literals(texts: set<Bytes>): Detector { s => Dirty(texts, s) }

  /** Texts that the overlap can carry across a chunk boundary. */
  predicate Bounded(texts: set<Bytes>) { forall p <- texts :: 0 < |p| <= OVERLAP + 1 }

  lemma OccursInSuffix(p: Bytes, s: Bytes, k: nat)
    requires k <= |s| && Occurs(p, s[k..])
    ensures Occurs(p, s)
  {
    var i :| 0 <= i <= |s[k..]| && OccursAt(p, s[k..], i);
    assert s[k..][i..i + |p|] == s[k + i..k + i + |p|];
    assert OccursAt(p, s, k + i);
  }

  lemma OccursInPrefix(p: Bytes, s: Bytes, k: nat)
    requires k <= |s| && Occurs(p, s[..k])
    ensures Occurs(p, s)
  {
    var i :| 0 <= i <= |s[..k]| && OccursAt(p, s[..k], i);
    assert s[..k][i..i + |p|] == s[i..i + |p|];
    assert OccursAt(p, s, i);
  }

  lemma DirtyPrefix(texts: set<Bytes>, a: Bytes, b: Bytes)
    requires Dirty(texts, a)
    ensures Dirty(texts, a + b)
  {
    var p :| p in texts && Occurs(p, a);
    assert (a + b)[..|a|] == a;
    OccursInPrefix(p, a + b, |a|);
  }

  /** A text that starts in a clean part and ends behind it lies within the overlap. */
  lemma OccursNearEnd(p: Bytes, seen: Bytes, data: Bytes)
    requires 0 < |p| <= OVERLAP + 1 && !Occurs(p, seen) && Occurs(p, seen + data)
    ensures Occurs(p, Tail(seen) + data)
  {
    var s := seen + data;
    var i :| 0 <= i <= |s| && OccursAt(p, s, i);
    var k := |seen| - |Tail(seen)|;
    if i + |p| <= |seen| { KeptInPrefix(p, seen, data, i); }
    assert s[k..] == Tail(seen) + data;
    ShiftedIntoSuffix(p, s, i, k);
  }

  lemma KeptInPrefix(p: Bytes, a: Bytes, b: Bytes, i: nat)
    requires OccursAt(p, a + b, i) && i + |p| <= |a|
    ensures OccursAt(p, a, i) && Occurs(p, a)
  {
    assert (a + b)[i..i + |p|] == a[i..i + |p|];
    assert OccursAt(p, a, i);
  }

  lemma ShiftedIntoSuffix(p: Bytes, s: Bytes, i: nat, k: nat)
    requires OccursAt(p, s, i) && k <= i
    ensures OccursAt(p, s[k..], i - k) && Occurs(p, s[k..])
  {
    assert s[k..][i - k..i - k + |p|] == s[i..i + |p|];
    assert OccursAt(p, s[k..], i - k);
  }

  /** After a clean part, the window tells whether the whole stream is clean. */
  lemma WindowDecides(texts: set<Bytes>, seen: Bytes, data: Bytes)
    requires Bounded(texts) && !Dirty(texts, seen)
    ensures Dirty(texts, Tail(seen) + data) <==> Dirty(texts, seen + data)
  {
    var s := seen + data;
    var k := |seen| - |Tail(seen)|;
    assert s[k..] == Tail(seen) + data;
    if Dirty(texts, s[k..]) {
      var p :| p in texts && Occurs(p, s[k..]);
      OccursInSuffix(p, s, k);
    }
    if Dirty(texts, s) {
      var p :| p in texts && Occurs(p, s);
      assert !Occurs(p, seen);
      OccursNearEnd(p, seen, data);
    }
  }

  /** Texts of at most 257 bytes make a coherent detector. */
  lemma LiteralsCoherent(texts: set<Bytes>)
    requires Bounded(texts)
    ensures Coherent(Literals(texts))
  {
    assert forall p <- texts :: !Occurs(p, []);
    forall a, b
      ensures Dirty(texts, a) ==> Dirty(texts, a + b)
      ensures !Dirty(texts, a) ==> (Dirty(texts, Tail(a) + b) <==> Dirty(texts, a + b))
    {
      if Dirty(texts, a) { DirtyPrefix(texts, a, b); } else { WindowDecides(texts, a, b); }
    }
  }

  function Singles(s: Bytes): seq<Bytes> { seq(|s|, i requires 0 <= i < |s| => [s[i]]) }

  lemma {:induction false} SinglesConcat(s: Bytes)
    ensures Concat(Singles(s)) == s
  {
    if s != [] {
      assert Singles(s)[..|s| - 1] == Singles(s[..|s| - 1]);
      SinglesConcat(s[..|s| - 1]);
    }
  }

  lemma ShortIsClean(p: Bytes, s: Bytes)
    requires |s| < |p|
    ensures !Dirty({p}, s)
  {
  }

  /** The window scanned when byte k - 1 of a text comes alone. */
  function WindowAt(s: Bytes, k: nat): Bytes
    requires 0 < k <= |s|
  {
    if k <= OVERLAP then s[..k] else s[k - 1 - OVERLAP..k]
  }

  lemma WindowIs(s: Bytes, k: nat)
    requires 0 < k <= |s|
    ensures Tail(s[..k - 1]) + [s[k - 1]] == WindowAt(s, k) && Tail(WindowAt(s, k)) == Tail(s[..k])
  {
    assert s[..k] == s[..k - 1] + [s[k - 1]];
    TailOfTail(s[..k - 1], [s[k - 1]]);
  }

  lemma SinglesSnoc(s: Bytes, k: nat)
    requires 0 < k <= |s|
    ensures Singles(s[..k]) == Singles(s[..k - 1]) + [[s[k - 1]]]
  {
  }

  /** A detector that finds nothing in any window of a text lets it pass byte by byte. */
  lemma {:induction false} SinglesPass(dirty: Detector, s: Bytes, n: nat)
    requires n <= |s| && forall k | 0 < k <= |s| :: !dirty(WindowAt(s, k))
    ensures Scan(dirty, Singles(s[..n])) == Some(Tail(s[..n]))
  {
    if n > 0 {
      SinglesPass(dirty, s, n - 1);
      SinglesSnoc(s, n);
      ScanOne(dirty, Singles(s[..n - 1]), [s[n - 1]]);
      WindowIs(s, n);
    }
  }

  /** A text is caught under every chunking if and only if it has at most 257 bytes. */
  lemma CaughtIffBounded(p: Bytes)
    requires p != []
    ensures (forall chunks :: ExactOn(Literals({p}), chunks)) <==> |p| <= OVERLAP + 1
  {
    if |p| <= OVERLAP + 1 {
      LiteralsCoherent({p});
      ExactIffCoherent(Literals({p}));
    } else {
      forall k | 0 < k <= |p| ensures !Literals({p})(WindowAt(p, k)) { ShortIsClean(p, WindowAt(p, k)); }
      SinglesPass(Literals({p}), p, |p|);
      SinglesConcat(p);
      assert p[..|p|] == p && p[0..0 + |p|] == p && OccursAt(p, p, 0);
      assert Occurs(p, p) && !ExactOn(Literals({p}), Singles(p));
    }
  }

  // ------------------------------------------------------------------------ the writer

  datatype ScanError = CredentialDetected | DestinationFailed | ShortWrite

  /** Where accepted bytes go; it may take only part of what it is given, and fail. */
  class Destination {
    var received: Bytes

    constructor () ensures received == [] { received := []; }

    method Write(data: Bytes) returns (n: nat, failed: bool)
      modifies this
      ensures n <= |data| && received == old(received) + data[..n]
    {
      n, failed := *, *;
      if n > |data| {
        n := |data|;
      }
      received := received + data[..n];
    }
  }

  class ScanningWriter {
    const destination: Destination
    const dirty: Detector
    var tail: Bytes
    var err: Option<ScanError>

    ghost var accepted: seq<Bytes>
    ghost var offered: seq<Bytes>

    /** What went on is a prefix of what was offered, and while nothing failed it is all
        of it, with the tail that scanning it leaves. For a coherent detector it is clean. */
    ghost predicate Valid()
      reads this, destination
    {
      Scan(dirty, accepted) == Some(tail) && destination.received <= Concat(offered) &&
      (err.None? ==> destination.received == Concat(accepted) && offered == accepted) &&
      (Coherent(dirty) ==> !dirty(destination.received))
    }

    constructor (destination: Destination, dirty: Detector)
      requires destination.received == []
      ensures Valid() && this.destination == destination && this.dirty == dirty && err.None? && offered == []
    {
      this.destination, this.dirty := destination, dirty;
      tail, err, accepted, offered := [], None, [], [];
    }

    /** Scans and forwards a chunk; the first error stays. */
    method Write(data: Bytes) returns (written: nat, e: Option<ScanError>)
      requires Valid()
      modifies this, destination
      ensures Valid() && e == err && offered == old(offered) + [data]
      ensures old(err).Some? ==> written == 0 && err == old(err) && destination.received == old(destination.received)
      ensures old(err).None? ==> (err == Some(CredentialDetected) <==> Scan(dirty, offered).None?)
      ensures old(err).None? && Coherent(dirty) ==> (err == Some(CredentialDetected) <==> dirty(Concat(offered)))
      ensures old(err).None? && err == Some(CredentialDetected) ==> written == 0
      ensures err.None? ==> written == |data|
      ensures old(err).None? && err == Some(ShortWrite) ==> written < |data|
      ensures written <= |data| && destination.received == old(destination.received) + data[..written]
    {
      ScanOne(dirty, offered, data);
      ScanOne(dirty, accepted, data);
      if Coherent(dirty) { CoherentScan(dirty, offered + [data]); }
      offered := offered + [data];
      if err.Some? {
        return 0, err;
      }
      var window := tail + data;
      if dirty(window) {
        err := Some(CredentialDetected);
        return 0, err;
      }
      ghost var before := destination.received;
      var n, failed := destination.Write(data);
      PartClean(dirty, before, data, n);
      if failed {
        err := Some(DestinationFailed);
        return n, err;
      }
      if n != |data| {
        err := Some(ShortWrite);
        return n, err;
      }
      tail := Tail(window);
      accepted := accepted + [data];
      return n, None;
    }
  }

  lemma PartClean(dirty: Detector, before: Bytes, data: Bytes, n: nat)
    requires n <= |data|
    ensures before + data[..n] <= before + data
    ensures Coherent(dirty) && !dirty(before + data) ==> !dirty(before + data[..n])
  {
    assert before + data[..n] + data[n..] == before + data;
  }
}
