/** Replacing the generated part of a conversation by one checkpoint message, while
    the leading system messages and the declared context stay verbatim. */
module Compaction {
  import opened Wrappers
  import opened Texts
  import opened TokenBudget

  datatype ToolCall = ToolCall(id: string, name: string, arguments: string)

  datatype Message = Message(role: string, content: string, calls: seq<ToolCall>, callId: string)

  datatype Kind = Goal | Plan | Module | UserInput | Other(name: string)

  /** A piece of declared context, as a message carries it; text is its content when that is a JSON string. */
  datatype Envelope = Envelope(section: string, authority: bool, kind: Kind, reference: string, sha: string,
                               sourceSha: string, text: Option<string>)

  datatype Checkpoint = Checkpoint(section: string, version: int, source: string, references: seq<string>,
                                   summary: string, retained: seq<string>)

  datatype Item = Item(kind: Kind, reference: string, sha: string, sourceSha: string)

  datatype Binding = Binding(reference: string, sha: string, sourceSha: string)

  type Bindings = map<(Kind, string), Binding>

  datatype CompactionError = InvalidDeclaration | ContextWindowExceeded

  const CHECKPOINT := "COMPACTION_CHECKPOINT"
  const CONTEXT := "CONTEXT"
  const NOTHING := Checkpoint("", 0, "", [], "", [])
  const DEFAULT_SUMMARY := "The authoritative source context remains available through the checkpoint references."

  /** The JSON forms of checkpoints and envelopes, and the content digest. */
  datatype Codec = Codec(encode: Checkpoint -> string, decode: string -> Option<Checkpoint>,
                         envelope: string -> Option<Envelope>, digest: string -> string)

  /** Decoding inverts encoding, and one text has one section. */
  ghost predicate Lawful(codec: Codec) {
    (forall c :: codec.decode(codec.encode(c)) == Some(c)) &&
    (forall s :: codec.decode(s).Some? && codec.envelope(s).Some? ==>
                   codec.decode(s).value.section == codec.envelope(s).value.section)
  }

  // ---------------------------------------------------------------- token estimates

  function CallTokens(c: ToolCall): nat { Tokens(c.id) + Tokens(c.name) + (Bytes(c.arguments) + 3) / 4 + 8 }

  function CallsTokens(cs: seq<ToolCall>): nat {
    if cs == [] then 0 else CallsTokens(cs[..|cs| - 1]) + CallTokens(cs[|cs| - 1])
  }

  function MessageTokens(m: Message): nat {
    Tokens(m.role) + Tokens(m.content) + 4 + CallsTokens(m.calls) + Tokens(m.callId)
  }

  function Estimate(ms: seq<Message>): nat {
    if ms == [] then 0 else Estimate(ms[..|ms| - 1]) + MessageTokens(ms[|ms| - 1])
  }

  method EstimateMessagesTokens(ms: seq<Message>) returns (total: nat)
    ensures total == Estimate(ms)
  {
    total := 0;
    for i := 0 to |ms|
      invariant total == Estimate(ms[..i])
    {
      var m := ms[i];
      assert ms[..i + 1][..i] == ms[..i];
      total := total + Tokens(m.role) + Tokens(m.content) + 4;
      for j := 0 to |m.calls|
        invariant total == Estimate(ms[..i]) + Tokens(m.role) + Tokens(m.content) + 4 + CallsTokens(m.calls[..j])
      {
        var c := m.calls[j];
        assert m.calls[..j + 1][..j] == m.calls[..j];
        total := total + Tokens(c.id) + Tokens(c.name) + (Bytes(c.arguments) + 3) / 4 + 8;
      }
      assert m.calls[..|m.calls|] == m.calls;
      total := total + Tokens(m.callId);
    }
    assert ms[..|ms|] == ms;
  }

  /** Every text of a conversation, in order. */
  function AllTexts(ms: seq<Message>): seq<string> {
    if ms == [] then []
    else
      var m := ms[|ms| - 1];
      AllTexts(ms[..|ms| - 1]) + [m.role, m.content] + CallTexts(m.calls) + [m.callId]
  }

  function CallTexts(cs: seq<ToolCall>): seq<string> {
    if cs == [] then []
    else
      var c := cs[|cs| - 1];
      CallTexts(cs[..|cs| - 1]) + [c.id, c.name, c.arguments]
  }

  function Length(texts: seq<string>): nat {
    if texts == [] then 0 else Length(texts[..|texts| - 1]) + |texts[|texts| - 1]|
  }

  lemma {:induction false} LengthJoins(a: seq<string>, b: seq<string>)
    ensures Length(a + b) == Length(a) + Length(b)
    decreases |b|
  {
    if b == [] {
      assert a + b == a;
    } else {
      assert (a + b)[..|a + b| - 1] == a + b[..|b| - 1];
      LengthJoins(a, b[..|b| - 1]);
    }
  }

  lemma LengthOfThree(a: string, b: string, c: string)
    ensures Length([a, b]) == |a| + |b| && Length([a, b, c]) == |a| + |b| + |c| && Length([a]) == |a|
  {
    assert [a][..0] == [] && Length([a]) == |a|;
    assert [a, b][..1] == [a] && Length([a, b]) == |a| + |b|;
    assert [a, b, c][..2] == [a, b];
  }

  lemma {:induction false} CallsCounted(cs: seq<ToolCall>)
    ensures 4 * CallsTokens(cs) >= Length(CallTexts(cs)) + 32 * |cs|
  {
    if cs != [] {
      var c := cs[|cs| - 1];
      CallsCounted(cs[..|cs| - 1]);
      LengthJoins(CallTexts(cs[..|cs| - 1]), [c.id, c.name, c.arguments]);
      LengthOfThree(c.id, c.name, c.arguments);
      LongInBytes(c.arguments);
    }
  }

  lemma {:induction false} LongInBytes(s: string)
    ensures Bytes(s) >= |s|
  {
    if s != "" { LongInBytes(s[1..]); }
  }

  /** Nothing in a conversation is free: each token stands for at most four characters of
      its roles, contents, calls and identifiers, and every message and call costs more. */
  lemma {:induction false} EstimateCountsAll(ms: seq<Message>)
    ensures 4 * Estimate(ms) >= Length(AllTexts(ms)) + 16 * |ms|
  {
    if ms != [] {
      var front, m := ms[..|ms| - 1], ms[|ms| - 1];
      EstimateCountsAll(front);
      CallsCounted(m.calls);
      LengthOfThree(m.role, m.content, "");
      LengthOfThree(m.callId, "", "");
      LengthJoins(AllTexts(front), [m.role, m.content]);
      LengthJoins(AllTexts(front) + [m.role, m.content], CallTexts(m.calls));
      LengthJoins(AllTexts(front) + [m.role, m.content] + CallTexts(m.calls), [m.callId]);
    }
  }

  // ---------------------------------------------------------- what the manifest binds

  predicate IsBindable(k: Kind) { !k.Other? }

  /** The last item of a kind and reference is the one that counts. */
  function Bound(items: seq<Item>, kind: Kind, reference: string): Option<Binding> {
    if items == [] then None
    else
      var last := items[|items| - 1];
      if IsBindable(last.kind) && last.kind == kind && last.reference == reference
      then Some(Binding(last.reference, last.sha, last.sourceSha))
      else Bound(items[..|items| - 1], kind, reference)
  }

  predicate Names(item: Item, kind: Kind, reference: string) {
    item.kind == kind && item.reference == reference && (kind == Goal || kind == Plan || kind == Module || kind == UserInput)
  }

  /** What is bound is the last item of a bindable kind with that kind and reference. */
  lemma {:induction false} LastItemIsBound(items: seq<Item>, kind: Kind, reference: string) returns (i: int)
    ensures if Bound(items, kind, reference).None? then forall j | 0 <= j < |items| :: !Names(items[j], kind, reference)
            else 0 <= i < |items| && Names(items[i], kind, reference) &&
                 Bound(items, kind, reference) == Some(Binding(reference, items[i].sha, items[i].sourceSha)) &&
                 forall j | i < j < |items| :: !Names(items[j], kind, reference)
  {
    i := |items| - 1;
    if items != [] && !Names(items[i], kind, reference) {
      i := LastItemIsBound(items[..i], kind, reference);
    }
  }

  method ManifestBindings(items: seq<Item>) returns (allowed: Bindings)
    ensures forall k: Kind, r: string :: (k, r) in allowed <==> Bound(items, k, r).Some?
    ensures forall k: Kind, r: string | (k, r) in allowed :: allowed[(k, r)] == Bound(items, k, r).value
  {
    allowed := map[];
    for i := 0 to |items|
      invariant forall k: Kind, r: string :: (k, r) in allowed <==> Bound(items[..i], k, r).Some?
      invariant forall k: Kind, r: string | (k, r) in allowed :: allowed[(k, r)] == Bound(items[..i], k, r).value
    {
      var item := items[i];
      assert items[..i + 1][..i] == items[..i];
      if IsBindable(item.kind) {
        allowed := allowed[(item.kind, item.reference) := Binding(item.reference, item.sha, item.sourceSha)];
      }
    }
    assert items[..|items|] == items;
  }

  predicate IsSpace(c: char) {
    var n := c as int;
    9 <= n <= 13 || n == 32 || n == 0x85 || n == 0xa0 || n == 0x1680 || 0x2000 <= n <= 0x200a ||
    n == 0x2028 || n == 0x2029 || n == 0x202f || n == 0x205f || n == 0x3000
  }

  predicate Blank(s: string) { forall c <- s :: IsSpace(c) }

  /** The reference of a message that must be kept: declared context, not authority,
      bound by the manifest when there is one, with the digested content. */
  function CanonicalReference(codec: Codec, content: string, allowed: Option<Bindings>): Option<string> {
    var parsed := codec.envelope(content);
    if parsed.None? || parsed.value.section != CONTEXT || parsed.value.authority then None
    else
      var e := parsed.value;
      if Blank(e.reference) || !IsBindable(e.kind) then None
      else if allowed.None? then Some(e.reference)
      else if (e.kind, e.reference) !in allowed.value then None
      else
        var expected := allowed.value[(e.kind, e.reference)];
        if e.sha != expected.sha || e.sourceSha != expected.sourceSha then None
        else if e.text.None? || codec.digest(e.text.value) != expected.sha then None
        else Some(e.reference)
  }

  function ParseCheckpoint(codec: Codec, content: string): Option<Checkpoint> {
    var c := codec.decode(content);
    if c.None? || c.value.section != CHECKPOINT || c.value.version != 1 || c.value.source == "" then None else c
  }

  /** Exactly the envelopes whose last manifest item of that kind and reference has
      the same digests, and whose text has that digest, are kept. */
  lemma CanonicalIffBound(codec: Codec, content: string, items: seq<Item>, allowed: Bindings)
    requires forall k: Kind, r: string :: (k, r) in allowed <==> Bound(items, k, r).Some?
    requires forall k: Kind, r: string | (k, r) in allowed :: allowed[(k, r)] == Bound(items, k, r).value
    requires codec.envelope(content).Some?
    ensures var e := codec.envelope(content).value;
            CanonicalReference(codec, content, Some(allowed)).Some? <==>
            e.section == CONTEXT && !e.authority && !Blank(e.reference) &&
            Bound(items, e.kind, e.reference) == Some(Binding(e.reference, e.sha, e.sourceSha)) &&
            e.text.Some? && codec.digest(e.text.value) == e.sha
    ensures CanonicalReference(codec, content, Some(allowed)).Some? ==>
            CanonicalReference(codec, content, Some(allowed)).value == codec.envelope(content).value.reference
  {
    var e := codec.envelope(content).value;
    BoundIsOfItems(items, e.kind, e.reference);
  }

  /** Without a manifest every declared context that names its reference is kept. */
  lemma CanonicalIffDeclared(codec: Codec, content: string)
    ensures CanonicalReference(codec, content, None).Some? <==>
            codec.envelope(content).Some? &&
            var e := codec.envelope(content).value;
            e.section == "CONTEXT" && !e.authority && (exists c <- e.reference :: !IsSpace(c)) &&
            (e.kind == Goal || e.kind == Plan || e.kind == Module || e.kind == UserInput)
    ensures CanonicalReference(codec, content, None).Some? ==>
            CanonicalReference(codec, content, None).value == codec.envelope(content).value.reference
  {
  }

  lemma {:induction false} BoundIsOfItems(items: seq<Item>, kind: Kind, reference: string)
    ensures Bound(items, kind, reference).Some? ==>
            IsBindable(kind) && Bound(items, kind, reference).value.reference == reference
  {
    if items != [] { BoundIsOfItems(items[..|items| - 1], kind, reference); }
  }

  /** An item whose kind and reference no other item shares is bound as it stands. */
  lemma {:induction false} UniqueItemIsBound(items: seq<Item>, i: nat)
    requires i < |items| && IsBindable(items[i].kind)
    requires forall j | 0 <= j < |items| && j != i :: !(items[j].kind == items[i].kind && items[j].reference == items[i].reference)
    ensures Bound(items, items[i].kind, items[i].reference)
         == Some(Binding(items[i].reference, items[i].sha, items[i].sourceSha))
    decreases |items|
  {
    if i < |items| - 1 { UniqueItemIsBound(items[..|items| - 1], i); }
  }

  // --------------------------------------------------------- what a compaction keeps

  datatype Setting = Setting(codec: Codec, source: string, allowed: Option<Bindings>)

  /** The leading system messages. */
  function Prefix(ms: seq<Message>): (p: seq<Message>)
    ensures p <= ms && (forall m <- p :: m.role == "system") && (|p| < |ms| ==> ms[|p|].role != "system")
  {
    if ms == [] || ms[0].role != "system" then []
    else
      var p := Prefix(ms[1..]);
      assert ([ms[0]] + p)[1..] == p;
      [ms[0]] + p
  }

  function Body(ms: seq<Message>): seq<Message> { ms[|Prefix(ms)|..] }

  method CanonicalPrefix(ms: seq<Message>) returns (prefix: seq<Message>, body: seq<Message>)
    ensures prefix == Prefix(ms) && body == Body(ms)
  {
    var index := 0;
    while index < |ms| && ms[index].role == "system"
      invariant index <= |ms| && forall i | 0 <= i < index :: ms[i].role == "system"
    {
      index := index + 1;
    }
    PrefixIs(ms, index);
    return ms[..index], ms[index..];
  }

  lemma {:induction false} PrefixIs(ms: seq<Message>, n: nat)
    requires n <= |ms| && (forall i | 0 <= i < n :: ms[i].role == "system") && (n < |ms| ==> ms[n].role != "system")
    ensures Prefix(ms) == ms[..n]
  {
    if n > 0 {
      PrefixIs(ms[1..], n - 1);
      assert [ms[0]] + ms[1..][..n - 1] == ms[..n];
    }
  }

  predicate IsKept(st: Setting, m: Message) {
    m.role == "user" && ParseCheckpoint(st.codec, m.content).None? &&
    CanonicalReference(st.codec, m.content, st.allowed).Some?
  }

  /** The messages kept verbatim, in order. */
  function Canonical(st: Setting, body: seq<Message>): seq<Message> {
    if body == [] then []
    else
      var m := body[|body| - 1];
      Canonical(st, body[..|body| - 1]) + if IsKept(st, m) then [m] else []
  }

  function KeptReferences(st: Setting, body: seq<Message>): set<string> {
    if body == [] then {}
    else
      var m := body[|body| - 1];
      KeptReferences(st, body[..|body| - 1]) +
      if IsKept(st, m) then {CanonicalReference(st.codec, m.content, st.allowed).value} else {}
  }

  /** A checkpoint made from other context is dropped; one from this context is taken over. */
  function InputsOf(st: Setting, m: Message): seq<string> {
    if m.role != "user" || IsKept(st, m) then []
    else
      var c := ParseCheckpoint(st.codec, m.content);
      if c.None? then [m.content] else if c.value.source != st.source then [] else c.value.retained
  }

  function Inputs(st: Setting, body: seq<Message>): seq<string> {
    if body == [] then [] else Inputs(st, body[..|body| - 1]) + InputsOf(st, body[|body| - 1])
  }

  function CallParts(calls: seq<ToolCall>): seq<string> {
    if calls == [] then []
    else
      var c := calls[|calls| - 1];
      CallParts(calls[..|calls| - 1]) + ["assistant tool " + c.name + " (" + c.id + "): " + c.arguments]
  }

  function PartsOf(st: Setting, m: Message): seq<string> {
    if m.role == "user" then
      var c := ParseCheckpoint(st.codec, m.content);
      if c.None? || c.value.source != st.source || c.value.summary == "" then [] else [c.value.summary]
    else if m.role == "assistant" then
      (if Blank(m.content) then [] else ["assistant: " + m.content]) + CallParts(m.calls)
    else if m.role == "tool" && !Blank(m.content) then ["tool " + m.callId + ": " + m.content]
    else []
  }

  function Parts(st: Setting, body: seq<Message>): seq<string> {
    if body == [] then [] else Parts(st, body[..|body| - 1]) + PartsOf(st, body[|body| - 1])
  }

  function Joined(parts: seq<string>): string {
    if parts == [] then "" else if |parts| == 1 then parts[0]
    else Joined(parts[..|parts| - 1]) + "\n" + parts[|parts| - 1]
  }

  function SummaryOf(parts: seq<string>): string {
    if Joined(parts) == "" then DEFAULT_SUMMARY else Joined(parts)
  }

  /** The checkpoint before anything is cut. */
  ghost function Draft(st: Setting, body: seq<Message>): Checkpoint {
    Checkpoint(CHECKPOINT, 1, st.source, Sorted(KeptReferences(st, body)), SummaryOf(Parts(st, body)),
               Recent(Inputs(st, body), MAXIMUM_RETAINED_USER_TOKENS))
  }

  function Note(codec: Codec, cp: Checkpoint): Message { Message("user", codec.encode(cp), [], "") }

  function Size(codec: Codec, head: seq<Message>, cp: Checkpoint): nat { Estimate(head + [Note(codec, cp)]) }
}
