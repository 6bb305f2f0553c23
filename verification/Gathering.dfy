/** Walking over a conversation once, gathering what a checkpoint is made from. */
module Gathering {
  import opened Wrappers
  import opened Texts
  import opened Compaction
  import opened Summaries

  method KeptReferenceSet(st: Setting, body: seq<Message>) returns (refs: set<string>)
    requires Lawful(st.codec)
    ensures refs == KeptReferences(st, body)
  {
    refs := {};
    for i := 0 to |body|
      invariant refs == KeptReferences(st, body[..i])
    {
      var m := body[i];
      assert body[..i + 1][..i] == body[..i];
      if m.role == "user" {
        var r := CanonicalReference(st.codec, m.content, st.allowed);
        if r.Some? {
          OneSection(st, m);
          refs := refs + {r.value};
        }
      }
    }
    assert body[..|body|] == body;
  }

  lemma OneSection(st: Setting, m: Message)
    requires Lawful(st.codec) && CanonicalReference(st.codec, m.content, st.allowed).Some?
    ensures ParseCheckpoint(st.codec, m.content).None?
  {
  }

  predicate ReferenceAllowed(allowed: Bindings, reference: string) {
    exists k | k in allowed :: allowed[k].reference == reference
  }

  /** References of an earlier checkpoint are taken over only when their envelope is still there. */
  method TakeOver(st: Setting, start: seq<string>, previous: seq<string>, kept: set<string>) returns (references: seq<string>)
    ensures Elements(start) <= Elements(references) <= Elements(start) + kept
  {
    references := start;
    for i := 0 to |previous|
      invariant Elements(start) <= Elements(references) <= Elements(start) + kept
    {
      if previous[i] in kept && (st.allowed.None? || ReferenceAllowed(st.allowed.value, previous[i])) {
        ElementsPlus(references, previous[i]);
        references := references + [previous[i]];
      }
    }
  }

  method Gather(st: Setting, body: seq<Message>, kept: set<string>)
    returns (references: seq<string>, canonical: seq<Message>, parts: seq<string>, inputs: seq<string>)
    requires kept == KeptReferences(st, body)
    ensures Elements(references) == kept && canonical == Canonical(st, body)
    ensures parts == Parts(st, body) && inputs == Inputs(st, body)
    ensures st.source != "" ==> Listed(InSummary, st, body, parts) && Listed(AmongInputs, st, body, inputs)
  {
    if st.source != "" {
      AllListed(InSummary, st, body);
      AllListed(AmongInputs, st, body);
    }
    references, canonical, parts, inputs := [], [], [], [];
    for i := 0 to |body|
      invariant KeptReferences(st, body[..i]) <= Elements(references) <= kept
      invariant canonical == Canonical(st, body[..i])
      invariant parts == Parts(st, body[..i]) && inputs == Inputs(st, body[..i])
    {
      assert body[..i + 1][..i] == body[..i];
      KeptSoFar(st, body, i + 1);
      references, canonical, parts, inputs := GatherOne(st, body[i], kept, references, canonical, parts, inputs);
    }
    assert body[..|body|] == body;
  }

  method GatherOne(st: Setting, m: Message, kept: set<string>, refs: seq<string>, envelopes: seq<Message>,
                   texts: seq<string>, users: seq<string>)
    returns (references: seq<string>, canonical: seq<Message>, parts: seq<string>, inputs: seq<string>)
    requires IsKept(st, m) ==> CanonicalReference(st.codec, m.content, st.allowed).value in kept
    ensures Elements(refs) <= Elements(references) <= Elements(refs) + kept
    ensures IsKept(st, m) ==> CanonicalReference(st.codec, m.content, st.allowed).value in references
    ensures canonical == envelopes + if IsKept(st, m) then [m] else []
    ensures parts == texts + PartsOf(st, m) && inputs == users + InputsOf(st, m)
  {
    references, canonical, parts, inputs := refs, envelopes, texts, users;
    if m.role == "user" {
      var previous := ParseCheckpoint(st.codec, m.content);
      if previous.Some? {
        if previous.value.source != st.source {
          return;
        }
        references := TakeOver(st, references, previous.value.references, kept);
        if previous.value.summary != "" {
          parts := parts + [previous.value.summary];
        }
        inputs := inputs + previous.value.retained;
        return;
      }
      var reference := CanonicalReference(st.codec, m.content, st.allowed);
      if reference.Some? {
        ElementsPlus(references, reference.value);
        references := references + [reference.value];
        canonical := canonical + [m];
        return;
      }
      inputs := inputs + [m.content];
    } else if m.role == "assistant" {
      if !Blank(m.content) {
        parts := parts + ["assistant: " + m.content];
      }
      parts := AddCalls(parts, m.calls);
    } else if m.role == "tool" {
      if !Blank(m.content) {
        parts := parts + ["tool " + m.callId + ": " + m.content];
      }
    }
  }

  lemma {:induction false} KeptSoFar(st: Setting, body: seq<Message>, i: nat)
    requires i <= |body|
    ensures KeptReferences(st, body[..i]) <= KeptReferences(st, body)
    decreases |body|
  {
    if i == |body| {
      assert body[..i] == body;
    } else {
      KeptSoFar(st, body[..|body| - 1], i);
      assert body[..|body| - 1][..i] == body[..i];
    }
  }

  method AddCalls(start: seq<string>, calls: seq<ToolCall>) returns (parts: seq<string>)
    ensures parts == start + CallParts(calls)
  {
    parts := start;
    for i := 0 to |calls|
      invariant parts == start + CallParts(calls[..i])
    {
      var c := calls[i];
      assert calls[..i + 1][..i] == calls[..i];
      parts := parts + ["assistant tool " + c.name + " (" + c.id + "): " + c.arguments];
    }
    assert calls[..|calls|] == calls;
  }

  /** Distinct non-empty values, sorted. */
  method UniqueSorted(values: seq<string>) returns (r: seq<string>)
    ensures r == Sorted(Elements(values) - {""})
  {
    var seen: set<string> := {};
    r := [];
    for i := 0 to |values|
      invariant seen == Elements(r) == Elements(values[..i]) - {""}
    {
      var v := values[i];
      assert values[..i + 1] == values[..i] + [v];
      ElementsPlus(values[..i], v);
      if v != "" && v !in seen {
        seen := seen + {v};
        ElementsPlus(r, v);
        r := r + [v];
      }
    }
    assert values[..|values|] == values;
    SortedIs(r);
    r := SortedDistinct(r);
  }
}
