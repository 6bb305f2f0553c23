/** Compacting to a token target, and what survives any number of compactions. */
module CompactionRuns {
  import opened Wrappers
  import opened Texts
  import opened TokenBudget
  import opened Compaction
  import opened Gathering
  import opened Summaries

  // ------------------------------------------------------------ cutting a checkpoint

  /** The draft with nothing generated left in it. */
  function Least(draft: Checkpoint): Checkpoint {
    draft.(summary := "", retained := if draft.retained == [] then [] else [""])
  }

  ghost predicate DroppedOldest(codec: Codec, head: seq<Message>, target: int, draft: Checkpoint, retained: seq<string>) {
    exists k | 0 < k < |draft.retained| ::
      retained == draft.retained[k..] &&
      Size(codec, head, draft.(summary := "", retained := draft.retained[k - 1..])) > target
  }

  /** The byte limit that the excess tokens leave to a text of n bytes. */
  function Limit(n: nat, excess: int): (max: nat)
    ensures excess > 0 && n > 0 ==> max < n
  {
    var max := n - excess * 4;
    var max' := if max >= n then n - 1 else max;
    if max' < 0 then 0 else max'
  }

  /** A text cut from was, in a checkpoint of some size over the target: four bytes for
      each token over are gone, or all of it, and no character more than that takes. */
  predicate CutBy(was: string, size: int, target: int, cut: string) {
    size > target && cut <= was && cut != was &&
    (cut == "" || Bytes(cut) + 4 * (size - target) <= Bytes(was)) &&
    Bytes(cut) + Width(was[|cut|]) + 4 * (size - target) > Bytes(was)
  }

  lemma TruncationCuts(was: string, size: int, target: int)
    requires was != "" && size > target
    ensures CutBy(was, size, target, Truncated(was, Limit(Bytes(was), size - target)))
  {
    TruncatedShrinks(was, Limit(Bytes(was), size - target));
  }

  predicate SummaryWas(codec: Codec, head: seq<Message>, target: int, draft: Checkpoint, summary: string, was: string) {
    was <= draft.summary && CutBy(was, Size(codec, head, draft.(summary := was)), target, summary)
  }

  ghost predicate SummaryCut(codec: Codec, head: seq<Message>, target: int, draft: Checkpoint, summary: string) {
    exists was :: SummaryWas(codec, head, target, draft, summary, was)
  }

  predicate InputWas(codec: Codec, head: seq<Message>, target: int, draft: Checkpoint, latest: string, input: string, was: string) {
    was <= latest && CutBy(was, Size(codec, head, draft.(summary := "", retained := [was])), target, input)
  }

  /** The same for the one input left. */
  ghost predicate InputCut(codec: Codec, head: seq<Message>, target: int, draft: Checkpoint, latest: string, input: string) {
    exists was :: InputWas(codec, head, target, draft, latest, input, was)
  }

  ghost predicate CutLatest(codec: Codec, head: seq<Message>, target: int, draft: Checkpoint, retained: seq<string>) {
    draft.retained != [] &&
    var latest := draft.retained[|draft.retained| - 1];
    |retained| == 1 && retained[0] <= latest && retained[0] != latest &&
    Size(codec, head, draft.(summary := "", retained := [latest])) > target &&
    InputCut(codec, head, target, draft, latest, retained[0])
  }

  /** cp is the draft, cut no further than the target asks: the summary first, then
      whole inputs from the oldest, then the latest input. */
  ghost predicate CutFrom(codec: Codec, head: seq<Message>, target: int, draft: Checkpoint, cp: Checkpoint) {
    cp == draft.(summary := cp.summary, retained := cp.retained) &&
    cp.summary <= draft.summary &&
    (cp.summary == draft.summary ||
     (Size(codec, head, draft) > target && SummaryCut(codec, head, target, draft, cp.summary))) &&
    (cp.retained == draft.retained ||
     (cp.summary == "" && Size(codec, head, draft.(summary := "")) > target &&
      (DroppedOldest(codec, head, target, draft, cp.retained) || CutLatest(codec, head, target, draft, cp.retained))))
  }

  lemma NoteReplaced(head: seq<Message>, a: Message, b: Message)
    ensures (head + [a])[|head| := b] == head + [b]
  {
  }

  lemma TruncatedShrinks(s: string, max: nat)
    requires max < Bytes(s)
    ensures Bytes(Truncated(s, max)) < Bytes(s) && Truncated(s, max) != s
  {
  }

  lemma CutsSummary(codec: Codec, head: seq<Message>, target: int, draft: Checkpoint, cp: Checkpoint, size: int)
    requires cp == draft.(summary := cp.summary) && cp.summary <= draft.summary && cp.summary != ""
    requires size == Size(codec, head, cp) > target
    ensures SummaryCut(codec, head, target, draft, Truncated(cp.summary, Limit(Bytes(cp.summary), size - target)))
  {
    TruncationCuts(cp.summary, size, target);
    assert cp == draft.(summary := cp.summary);
    assert SummaryWas(codec, head, target, draft, Truncated(cp.summary, Limit(Bytes(cp.summary), size - target)), cp.summary);
  }

  method CutSummary(codec: Codec, head: seq<Message>, target: int, draft: Checkpoint) returns (cp: Checkpoint)
    ensures cp == draft.(summary := cp.summary) && cp.summary <= draft.summary
    ensures cp.summary == draft.summary ||
            (Size(codec, head, draft) > target && SummaryCut(codec, head, target, draft, cp.summary))
    ensures Size(codec, head, cp) <= target || cp.summary == ""
  {
    cp := draft;
    var compacted := head + [Note(codec, cp)];
    while Estimate(compacted) > target && cp.summary != ""
      invariant compacted == head + [Note(codec, cp)]
      invariant cp == draft.(summary := cp.summary) && cp.summary <= draft.summary
      invariant cp.summary == draft.summary ||
                (Size(codec, head, draft) > target && SummaryCut(codec, head, target, draft, cp.summary))
      decreases Bytes(cp.summary)
    {
      var excess := Estimate(compacted) - target;
      var maximumBytes := Limit(Bytes(cp.summary), excess);
      TruncatedShrinks(cp.summary, maximumBytes);
      CutsSummary(codec, head, target, draft, cp, Estimate(compacted));
      var summary := TruncateUtf8(cp.summary, maximumBytes);
      cp := cp.(summary := summary);
      NoteReplaced(head, compacted[|head|], Note(codec, cp));
      compacted := compacted[|compacted| - 1 := Note(codec, cp)];
    }
  }

  method DropOldest(codec: Codec, head: seq<Message>, target: int, draft: Checkpoint) returns (cp: Checkpoint, ghost k: nat)
    ensures k == 0 || k < |draft.retained|
    ensures cp == draft.(retained := draft.retained[k..])
    ensures k > 0 ==> Size(codec, head, draft.(retained := draft.retained[k - 1..])) > target
    ensures Size(codec, head, cp) <= target || |cp.retained| <= 1
  {
    cp, k := draft, 0;
    var compacted := head + [Note(codec, cp)];
    while Estimate(compacted) > target && |cp.retained| > 1
      invariant compacted == head + [Note(codec, cp)]
      invariant (k == 0 || k < |draft.retained|) && cp == draft.(retained := draft.retained[k..])
      invariant k > 0 ==> Size(codec, head, draft.(retained := draft.retained[k - 1..])) > target
      decreases |cp.retained|
    {
      cp := cp.(retained := cp.retained[1..]);
      k := k + 1;
      NoteReplaced(head, compacted[|head|], Note(codec, cp));
      compacted := compacted[|compacted| - 1 := Note(codec, cp)];
    }
  }

  lemma CutsInput(codec: Codec, head: seq<Message>, target: int, draft: Checkpoint, whole: string, latest: string, size: int)
    requires draft.summary == "" && latest <= whole && latest != ""
    requires size == Size(codec, head, draft.(retained := [latest])) > target
    ensures InputCut(codec, head, target, draft, whole, Truncated(latest, Limit(Bytes(latest), size - target)))
  {
    TruncationCuts(latest, size, target);
    assert draft.(summary := "", retained := [latest]) == draft.(retained := [latest]);
    assert InputWas(codec, head, target, draft, whole, Truncated(latest, Limit(Bytes(latest), size - target)), latest);
  }

  method CutLast(codec: Codec, head: seq<Message>, target: int, draft: Checkpoint) returns (cp: Checkpoint)
    requires |draft.retained| == 1 && draft.summary == ""
    ensures |cp.retained| == 1 && cp == draft.(retained := cp.retained) && cp.retained[0] <= draft.retained[0]
    ensures cp.retained == draft.retained ||
            (Size(codec, head, draft) > target && InputCut(codec, head, target, draft, draft.retained[0], cp.retained[0]))
    ensures Size(codec, head, cp) <= target || cp.retained[0] == ""
  {
    cp := draft;
    var whole := draft.retained[0];
    var latest := whole;
    assert draft.retained == [whole] && draft == draft.(retained := [whole]);
    var compacted := head + [Note(codec, cp)];
    while Estimate(compacted) > target && latest != ""
      invariant cp == draft.(retained := [latest]) && compacted == head + [Note(codec, cp)] && latest <= whole
      invariant latest == whole || (Size(codec, head, draft) > target && InputCut(codec, head, target, draft, whole, latest))
      decreases Bytes(latest)
    {
      CutsInput(codec, head, target, draft, whole, latest, Estimate(compacted));
      var excess := Estimate(compacted) - target;
      var maximumBytes := Limit(Bytes(latest), excess);
      TruncatedShrinks(latest, maximumBytes);
      latest := TruncateUtf8(latest, maximumBytes);
      cp := cp.(retained := [latest]);
      NoteReplaced(head, compacted[|head|], Note(codec, cp));
      compacted := compacted[|compacted| - 1 := Note(codec, cp)];
    }
  }

  /** Dropping and cutting inputs, once the summary is empty. */
  method ShrinkInputs(codec: Codec, head: seq<Message>, target: int, draft: Checkpoint) returns (cp: Checkpoint)
    requires draft.summary == "" && Size(codec, head, draft) > target
    ensures cp == draft.(retained := cp.retained)
    ensures cp.retained == draft.retained || DroppedOldest(codec, head, target, draft, cp.retained) ||
            CutLatest(codec, head, target, draft, cp.retained)
    ensures Size(codec, head, cp) > target ==> cp == Least(draft)
  {
    ghost var k;
    cp, k := DropOldest(codec, head, target, draft);
    DroppedBy(codec, head, target, draft, k);
    if Size(codec, head, cp) <= target || |cp.retained| == 0 {
      return;
    }
    ghost var latest := draft.retained[|draft.retained| - 1];
    assert cp.retained == [latest];
    assert cp == draft.(retained := [latest]) == draft.(summary := "", retained := [latest]);
    ghost var single := cp;
    cp := CutLast(codec, head, target, cp);
    LatestCut(codec, head, target, draft, single, latest, cp.retained);
  }

  lemma LatestCut(codec: Codec, head: seq<Message>, target: int, draft: Checkpoint, single: Checkpoint, latest: string,
                  retained: seq<string>)
    requires draft.summary == "" && draft.retained != [] && latest == draft.retained[|draft.retained| - 1]
    requires single == draft.(retained := [latest]) && |retained| == 1 && retained[0] <= latest
    requires retained == [latest] ||
             (Size(codec, head, single) > target && InputCut(codec, head, target, single, latest, retained[0]))
    ensures retained == [latest] || CutLatest(codec, head, target, draft, retained)
  {
    if retained != [latest] {
      assert retained == [retained[0]];
      SameInputCut(codec, head, target, draft, single, latest, retained[0]);
      assert single == draft.(summary := "", retained := [latest]);
    }
  }

  lemma SameInputCut(codec: Codec, head: seq<Message>, target: int, a: Checkpoint, b: Checkpoint, latest: string, input: string)
    requires a.(summary := "", retained := []) == b.(summary := "", retained := [])
    requires InputCut(codec, head, target, b, latest, input)
    ensures InputCut(codec, head, target, a, latest, input)
  {
    var was :| InputWas(codec, head, target, b, latest, input, was);
    assert a.(summary := "", retained := [was]) == b.(summary := "", retained := [was]);
    assert InputWas(codec, head, target, a, latest, input, was);
  }

  lemma DroppedBy(codec: Codec, head: seq<Message>, target: int, draft: Checkpoint, k: nat)
    requires draft.summary == "" && (k == 0 || k < |draft.retained|)
    requires k > 0 ==> Size(codec, head, draft.(retained := draft.retained[k - 1..])) > target
    ensures draft.retained[k..] == draft.retained || DroppedOldest(codec, head, target, draft, draft.retained[k..])
  {
    if k > 0 {
      assert draft.(retained := draft.retained[k - 1..]) == draft.(summary := "", retained := draft.retained[k - 1..]);
    }
  }

  /** The three loops in turn. */
  method Shrink(codec: Codec, head: seq<Message>, target: int, draft: Checkpoint) returns (cp: Checkpoint)
    ensures CutFrom(codec, head, target, draft, cp)
    ensures Size(codec, head, cp) > target ==> cp == Least(draft)
  {
    cp := CutSummary(codec, head, target, draft);
    if Size(codec, head, cp) <= target {
      return;
    }
    ghost var bare := draft.(summary := "");
    assert cp == bare;
    cp := ShrinkInputs(codec, head, target, cp);
    SameCuts(codec, head, target, draft, cp.retained);
  }

  lemma SameCuts(codec: Codec, head: seq<Message>, target: int, draft: Checkpoint, retained: seq<string>)
    ensures DroppedOldest(codec, head, target, draft.(summary := ""), retained) ==>
            DroppedOldest(codec, head, target, draft, retained)
    ensures CutLatest(codec, head, target, draft.(summary := ""), retained) ==> CutLatest(codec, head, target, draft, retained)
    ensures Least(draft.(summary := "")) == Least(draft)
  {
    var bare := draft.(summary := "");
    if DroppedOldest(codec, head, target, bare, retained) { SameDropped(codec, head, target, draft, retained); }
    if CutLatest(codec, head, target, bare, retained) {
      var latest := draft.retained[|draft.retained| - 1];
      SameInputCut(codec, head, target, draft, bare, latest, retained[0]);
      assert bare.(summary := "", retained := [latest]) == draft.(summary := "", retained := [latest]);
    }
  }

  lemma SameDropped(codec: Codec, head: seq<Message>, target: int, draft: Checkpoint, retained: seq<string>)
    requires DroppedOldest(codec, head, target, draft.(summary := ""), retained)
    ensures DroppedOldest(codec, head, target, draft, retained)
  {
    var k :| 0 < k < |draft.retained| && retained == draft.retained[k..] &&
      Size(codec, head, draft.(summary := "").(summary := "", retained := draft.retained[k - 1..])) > target;
    assert draft.(summary := "").(summary := "", retained := draft.retained[k - 1..])
        == draft.(summary := "", retained := draft.retained[k - 1..]);
  }

  // ------------------------------------------------------------------ one compaction

  ghost function Head(st: Setting, ms: seq<Message>): seq<Message> { Prefix(ms) + Canonical(st, Body(ms)) }

  /** What a successful compaction gives: the conversation itself when it fits, else
      what must stay verbatim followed by a checkpoint, within the target. */
  ghost predicate CompactsTo(st: Setting, target: int, ms: seq<Message>, out: seq<Message>, cp: Checkpoint) {
    if Estimate(ms) <= target then out == ms && cp == NOTHING
    else
      st.source != "" && out == Head(st, ms) + [Note(st.codec, cp)] && Estimate(out) <= target &&
      CutFrom(st.codec, Head(st, ms), target, Draft(st, Body(ms)), cp)
  }

  /** c is d with text taken out of its summary or its inputs. */
  ghost predicate Reduced(c: Checkpoint, d: Checkpoint) {
    c == d.(summary := c.summary, retained := c.retained) && c.summary <= d.summary &&
    |c.retained| <= |d.retained| &&
    forall i | 0 <= i < |c.retained| :: c.retained[i] <= d.retained[|d.retained| - |c.retained| + i]
  }

  /** Taking text out never makes the encoded checkpoint longer. */
  ghost predicate Monotone(codec: Codec) {
    forall c, d :: Reduced(c, d) ==> Tokens(codec.encode(c)) <= Tokens(codec.encode(d))
  }

  /** Even the least checkpoint leaves the conversation over the target. */
  ghost predicate Hopeless(st: Setting, target: int, ms: seq<Message>) {
    Estimate(ms) > target && Size(st.codec, Head(st, ms), Least(Draft(st, Body(ms)))) > target
  }

  method CompactMessages(st: Setting, ms: seq<Message>, target: int)
    returns (r: Result<(seq<Message>, Checkpoint), CompactionError>)
    requires Lawful(st.codec)
    ensures r == Err(InvalidDeclaration) <==> ms == [] || st.source == "" || target <= 0
    ensures r.Ok? ==> CompactsTo(st, target, ms, r.value.0, r.value.1)
    ensures r == Err(ContextWindowExceeded) ==> Hopeless(st, target, ms)
    ensures Monotone(st.codec) && r != Err(InvalidDeclaration) ==>
              (r == Err(ContextWindowExceeded) <==> Hopeless(st, target, ms))
    ensures r.Ok? && Estimate(ms) > target ==> Recounts(st, Body(ms), r.value.1)
  {
    if ms == [] || st.source == "" || target <= 0 {
      return Err(InvalidDeclaration);
    }
    var prefix, body := CanonicalPrefix(ms);
    if Estimate(ms) <= target {
      return Ok((ms, NOTHING));
    }
    var draft, canonical := Prepare(st, body);
    var cp := Shrink(st.codec, prefix + canonical, target, draft);
    var compacted := prefix + canonical + [Note(st.codec, cp)];
    if Estimate(compacted) > target {
      return Err(ContextWindowExceeded);
    }
    CutRecounts(st, target, body, prefix + canonical, cp);
    if Monotone(st.codec) { LeastIsSmallest(st.codec, prefix + canonical, target, draft, cp); }
    r := Ok((compacted, cp));
  }

  /** The checkpoint before it is cut says everything that the messages must leave and
      nothing else, and the summary is the beginning of that; its inputs are the latest of
      the user's own words, the oldest of them perhaps cut. */
  ghost predicate Recounts(st: Setting, body: seq<Message>, cp: Checkpoint) {
    SaysAll(st, body, Draft(st, body).summary) && cp.summary <= Draft(st, body).summary &&
    Listed(AmongInputs, st, body, Inputs(st, body)) && IsRecentPart(cp.retained, Inputs(st, body))
  }

  lemma CutRecounts(st: Setting, target: int, body: seq<Message>, head: seq<Message>, cp: Checkpoint)
    requires st.source != "" && CutFrom(st.codec, head, target, Draft(st, body), cp)
    ensures Recounts(st, body, cp)
  {
    SummarySaysAll(st, body);
    AllListed(AmongInputs, st, body);
    CutIsRecentPart(st.codec, head, target, Draft(st, body), cp);
    RecentIsRecentPart(Inputs(st, body), MAXIMUM_RETAINED_USER_TOKENS);
    PartOfPart(cp.retained, Draft(st, body).retained, Inputs(st, body));
  }

  method Prepare(st: Setting, body: seq<Message>) returns (draft: Checkpoint, canonical: seq<Message>)
    requires Lawful(st.codec)
    ensures draft == Draft(st, body) && canonical == Canonical(st, body)
  {
    var kept := KeptReferenceSet(st, body);
    var references, parts, inputs;
    references, canonical, parts, inputs := Gather(st, body, kept);
    var retained := RetainRecentUserInput(inputs, MAXIMUM_RETAINED_USER_TOKENS);
    KeptAreNamed(st, body);
    var sorted := UniqueSorted(references);
    assert kept - {""} == kept;
    draft := Checkpoint(CHECKPOINT, 1, st.source, sorted, SummaryOf(parts), retained);
  }

  lemma {:induction false} KeptAreNamed(st: Setting, body: seq<Message>)
    ensures "" !in KeptReferences(st, body)
  {
    if body != [] { KeptAreNamed(st, body[..|body| - 1]); }
  }

  lemma LeastIsSmallest(codec: Codec, head: seq<Message>, target: int, draft: Checkpoint, cp: Checkpoint)
    requires Monotone(codec) && CutFrom(codec, head, target, draft, cp)
    ensures Size(codec, head, Least(draft)) <= Size(codec, head, cp)
  {
    assert Reduced(Least(draft), cp);
    SizeIs(codec, head, cp);
    SizeIs(codec, head, Least(draft));
  }

  lemma SizeIs(codec: Codec, head: seq<Message>, cp: Checkpoint)
    ensures Size(codec, head, cp) == Estimate(head) + MessageTokens(Note(codec, cp))
  {
    assert (head + [Note(codec, cp)])[..|head|] == head;
  }

  /** With the manifest's bindings. */
  method CompactWithManifest(codec: Codec, items: seq<Item>, sha: string, ms: seq<Message>, target: int)
    returns (r: Result<(seq<Message>, Checkpoint), CompactionError>, ghost st: Setting)
    requires Lawful(codec)
    ensures st.codec == codec && st.source == sha && st.allowed.Some?
    ensures BindsManifest(st.allowed.value, items)
    ensures r == Err(InvalidDeclaration) <==> ms == [] || sha == "" || target <= 0
    ensures r.Ok? ==> CompactsTo(st, target, ms, r.value.0, r.value.1)
    ensures r.Ok? && Estimate(ms) > target ==> Recounts(st, Body(ms), r.value.1)
    ensures r == Err(ContextWindowExceeded) ==> Hopeless(st, target, ms)
  {
    var allowed := ManifestBindings(items);
    st := Setting(codec, sha, Some(allowed));
    r := CompactMessages(Setting(codec, sha, Some(allowed)), ms, target);
  }

  // ------------------------------------------------------- any number of compactions

  datatype Step = Append(ms: seq<Message>) | Compact(target: int, out: seq<Message>, cp: Checkpoint)

  function Apply(conv: seq<Message>, s: Step): seq<Message> {
    match s
    case Append(ms) => conv + ms
    case Compact(_, out, _) => out
  }

  /** The turns of a conversation are never system messages. */
  ghost predicate Legal(st: Setting, conv: seq<Message>, s: Step) {
    match s
    case Append(ms) => forall m <- ms :: m.role != "system"
    case Compact(target, out, cp) => CompactsTo(st, target, conv, out, cp)
  }

  function After(conv: seq<Message>, steps: seq<Step>): seq<Message> {
    if steps == [] then conv else Apply(After(conv, steps[..|steps| - 1]), steps[|steps| - 1])
  }

  /** Every step is legal where it happens. */
  ghost predicate Run(st: Setting, conv: seq<Message>, steps: seq<Step>) {
    steps == [] ||
    (Run(st, conv, steps[..|steps| - 1]) && Legal(st, After(conv, steps[..|steps| - 1]), steps[|steps| - 1]))
  }

  /** Everything the run appended. */
  function Appended(steps: seq<Step>): seq<Message> {
    if steps == [] then []
    else
      var s := steps[|steps| - 1];
      Appended(steps[..|steps| - 1]) + if s.Append? then s.ms else []
  }

  lemma {:induction false} CanonicalJoins(st: Setting, a: seq<Message>, b: seq<Message>)
    ensures Canonical(st, a + b) == Canonical(st, a) + Canonical(st, b)
    decreases |b|
  {
    if b == [] {
      assert a + b == a;
    } else {
      assert (a + b)[..|a + b| - 1] == a + b[..|b| - 1];
      CanonicalJoins(st, a, b[..|b| - 1]);
      Regroup(Canonical(st, a), Canonical(st, b[..|b| - 1]), if IsKept(st, b[|b| - 1]) then [b[|b| - 1]] else []);
    }
  }

  lemma {:induction false} InputsJoin(st: Setting, a: seq<Message>, b: seq<Message>)
    ensures Inputs(st, a + b) == Inputs(st, a) + Inputs(st, b)
    decreases |b|
  {
    if b == [] {
      assert a + b == a;
    } else {
      assert (a + b)[..|a + b| - 1] == a + b[..|b| - 1];
      InputsJoin(st, a, b[..|b| - 1]);
      Regroup(Inputs(st, a), Inputs(st, b[..|b| - 1]), InputsOf(st, b[|b| - 1]));
    }
  }

  lemma {:induction false} PartsJoin(st: Setting, a: seq<Message>, b: seq<Message>)
    ensures Parts(st, a + b) == Parts(st, a) + Parts(st, b)
    decreases |b|
  {
    if b == [] {
      assert a + b == a;
    } else {
      assert (a + b)[..|a + b| - 1] == a + b[..|b| - 1];
      PartsJoin(st, a, b[..|b| - 1]);
      Regroup(Parts(st, a), Parts(st, b[..|b| - 1]), PartsOf(st, b[|b| - 1]));
    }
  }

  predicate AllKept(st: Setting, ms: seq<Message>) {
    ms == [] || (IsKept(st, ms[|ms| - 1]) && AllKept(st, ms[..|ms| - 1]))
  }

  lemma AllKeptSnoc(st: Setting, c: seq<Message>, m: Message)
    requires AllKept(st, c)
    ensures IsKept(st, m) ==> AllKept(st, c + [m])
  {
    assert (c + [m])[..|c|] == c;
  }

  lemma {:induction false} CanonicalIsKept(st: Setting, body: seq<Message>)
    ensures AllKept(st, Canonical(st, body))
  {
    if body != [] {
      var c := Canonical(st, body[..|body| - 1]);
      CanonicalIsKept(st, body[..|body| - 1]);
      AllKeptSnoc(st, c, body[|body| - 1]);
      assert c + [] == c;
    }
  }

  lemma KeptAddsNothing(st: Setting, m: Message)
    requires IsKept(st, m)
    ensures InputsOf(st, m) == [] && PartsOf(st, m) == []
  {
  }

  lemma {:induction false} KeptAgain(st: Setting, c: seq<Message>)
    requires AllKept(st, c)
    ensures Canonical(st, c) == c && Inputs(st, c) == [] && Parts(st, c) == []
    ensures forall i | 0 <= i < |c| :: c[i].role == "user"
  {
    if c != [] {
      KeptAgain(st, c[..|c| - 1]);
      KeptAddsNothing(st, c[|c| - 1]);
      assert c[..|c| - 1] + [c[|c| - 1]] == c;
    }
  }

  lemma NoteAlone(st: Setting, cp: Checkpoint)
    requires Lawful(st.codec) && cp.section == CHECKPOINT && cp.version == 1 && cp.source == st.source != ""
    ensures var n := [Note(st.codec, cp)];
            Canonical(st, n) == [] && Inputs(st, n) == cp.retained &&
            Parts(st, n) == if cp.summary == "" then [] else [cp.summary]
  {
    var n := [Note(st.codec, cp)];
    assert n[..0] == [];
    assert ParseCheckpoint(st.codec, n[0].content) == Some(cp);
  }

  lemma AppendKeepsPrefix(conv: seq<Message>, ms: seq<Message>)
    requires forall m <- ms :: m.role != "system"
    ensures Prefix(conv + ms) == Prefix(conv) && Body(conv + ms) == Body(conv) + ms
  {
    var n := |Prefix(conv)|;
    PrefixIs(conv + ms, n);
  }

  lemma BodyOfCompacted(prefix: seq<Message>, ms: seq<Message>, tail: seq<Message>)
    requires prefix == Prefix(ms) && forall i | 0 <= i < |tail| :: tail[i].role != "system"
    ensures Prefix(prefix + tail) == prefix && Body(prefix + tail) == tail
  {
    PrefixIs(prefix, |prefix|);
    AppendKeepsPrefix(prefix, tail);
    assert Body(prefix) == [] && [] + tail == tail;
  }

  lemma ReadsBack(st: Setting, c: seq<Message>, cp: Checkpoint)
    requires Lawful(st.codec) && AllKept(st, c)
    requires cp.section == CHECKPOINT && cp.version == 1 && cp.source == st.source != ""
    ensures var body := c + [Note(st.codec, cp)];
            Canonical(st, body) == c && Inputs(st, body) == cp.retained &&
            Parts(st, body) == if cp.summary == "" then [] else [cp.summary]
  {
    var n := [Note(st.codec, cp)];
    KeptAgain(st, c);
    NoteAlone(st, cp);
    CanonicalJoins(st, c, n);
    InputsJoin(st, c, n);
    PartsJoin(st, c, n);
  }

  lemma NoSystemTurns(st: Setting, c: seq<Message>, m: Message)
    requires AllKept(st, c) && m.role == "user"
    ensures forall i | 0 <= i <= |c| :: (c + [m])[i].role != "system"
  {
    KeptAgain(st, c);
  }

  lemma HeadReadsBack(st: Setting, ms: seq<Message>, out: seq<Message>, cp: Checkpoint)
    requires Lawful(st.codec) && cp.section == CHECKPOINT && cp.version == 1 && cp.source == st.source != ""
    requires out == Prefix(ms) + (Canonical(st, Body(ms)) + [Note(st.codec, cp)])
    ensures Prefix(out) == Prefix(ms) && Canonical(st, Body(out)) == Canonical(st, Body(ms))
    ensures Inputs(st, Body(out)) == cp.retained
    ensures Parts(st, Body(out)) == if cp.summary == "" then [] else [cp.summary]
  {
    var c := Canonical(st, Body(ms));
    CanonicalIsKept(st, Body(ms));
    ReadsBack(st, c, cp);
    var tail := c + [Note(st.codec, cp)];
    NoSystemTurns(st, c, Note(st.codec, cp));
    BodyOfCompacted(Prefix(ms), ms, tail);
  }

  /** A compacted conversation reads back as what was kept, with the checkpoint's
      summary and inputs taken over. */
  lemma CompactedReadsBack(st: Setting, target: int, ms: seq<Message>, out: seq<Message>, cp: Checkpoint)
    requires Lawful(st.codec) && CompactsTo(st, target, ms, out, cp) && Estimate(ms) > target
    ensures Prefix(out) == Prefix(ms) && Canonical(st, Body(out)) == Canonical(st, Body(ms))
    ensures Inputs(st, Body(out)) == cp.retained
    ensures Parts(st, Body(out)) == if cp.summary == "" then [] else [cp.summary]
  {
    CompactedHeader(st, target, ms, out, cp);
    HeadReadsBack(st, ms, out, cp);
  }

  lemma CompactedHeader(st: Setting, target: int, ms: seq<Message>, out: seq<Message>, cp: Checkpoint)
    requires CompactsTo(st, target, ms, out, cp) && Estimate(ms) > target
    ensures cp.section == CHECKPOINT && cp.version == 1 && cp.source == st.source != ""
    ensures out == Prefix(ms) + (Canonical(st, Body(ms)) + [Note(st.codec, cp)])
    ensures cp.references == Sorted(KeptReferences(st, Body(ms)))
  {
    CutHeader(st.codec, Head(st, ms), target, Draft(st, Body(ms)), cp);
    Regroup(Prefix(ms), Canonical(st, Body(ms)), [Note(st.codec, cp)]);
  }

  lemma CutHeader(codec: Codec, head: seq<Message>, target: int, draft: Checkpoint, cp: Checkpoint)
    requires CutFrom(codec, head, target, draft, cp)
    ensures cp.section == draft.section && cp.version == draft.version && cp.source == draft.source
    ensures cp.references == draft.references
  {
  }

  lemma StepKeepsContext(st: Setting, conv: seq<Message>, s: Step)
    requires Lawful(st.codec) && Legal(st, conv, s)
    ensures Prefix(Apply(conv, s)) == Prefix(conv)
    ensures Canonical(st, Body(Apply(conv, s))) == Canonical(st, Body(conv)) + if s.Append? then Canonical(st, s.ms) else []
  {
    match s
    case Append(ms) =>
      AppendKeepsPrefix(conv, ms);
      CanonicalJoins(st, Body(conv), ms);
    case Compact(target, out, cp) =>
      if Estimate(conv) > target { CompactedReadsBack(st, target, conv, out, cp); }
  }

  lemma LastKeepsContext(st: Setting, conv: seq<Message>, steps: seq<Step>)
    requires Lawful(st.codec) && Run(st, conv, steps) && steps != []
    ensures var (was, now, s) := (After(conv, steps[..|steps| - 1]), After(conv, steps), steps[|steps| - 1]);
            Prefix(now) == Prefix(was) &&
            Canonical(st, Body(now)) == Canonical(st, Body(was)) + if s.Append? then Canonical(st, s.ms) else []
  {
    StepKeepsContext(st, After(conv, steps[..|steps| - 1]), steps[|steps| - 1]);
  }

  lemma AppendedCanonical(st: Setting, steps: seq<Step>)
    requires steps != []
    ensures var (front, s) := (steps[..|steps| - 1], steps[|steps| - 1]);
            Canonical(st, Appended(steps)) == Canonical(st, Appended(front)) + if s.Append? then Canonical(st, s.ms) else []
  {
    var front, s := steps[..|steps| - 1], steps[|steps| - 1];
    if s.Append? { CanonicalJoins(st, Appended(front), s.ms); } else { assert Appended(front) + [] == Appended(front); }
  }

  /** The leading system messages and every kept envelope survive verbatim and in
      order, over any number of compactions and appended turns. */
  lemma {:induction false} ContextSurvives(st: Setting, conv: seq<Message>, steps: seq<Step>)
    requires Lawful(st.codec) && Run(st, conv, steps)
    ensures Prefix(After(conv, steps)) == Prefix(conv)
    ensures Canonical(st, Body(After(conv, steps))) == Canonical(st, Body(conv)) + Canonical(st, Appended(steps))
  {
    if steps == [] {
      assert Canonical(st, Body(conv)) + [] == Canonical(st, Body(conv));
    } else {
      ContextSurvives(st, conv, steps[..|steps| - 1]);
      LastKeepsContext(st, conv, steps);
      AppendedCanonical(st, steps);
      var s := steps[|steps| - 1];
      Regroup(Canonical(st, Body(conv)), Canonical(st, Appended(steps[..|steps| - 1])),
              if s.Append? then Canonical(st, s.ms) else []);
    }
  }

  // ----------------------------------------------------------- declared context by name

  lemma {:induction false} CanonicalFrom(st: Setting, body: seq<Message>)
    ensures forall m <- Canonical(st, body) :: m in body && m.role == "user"
  {
    if body != [] { CanonicalFrom(st, body[..|body| - 1]); }
  }

  /** The bindings are those of the manifest. */
  ghost predicate BindsManifest(allowed: Bindings, items: seq<Item>) {
    (forall k: Kind, r: string :: (k, r) in allowed <==> Bound(items, k, r).Some?) &&
    forall k: Kind, r: string | (k, r) in allowed :: allowed[(k, r)] == Bound(items, k, r).value
  }

  /** Item i is of a bindable kind, and no other item has its kind and reference. */
  predicate IsUnique(items: seq<Item>, i: nat) {
    i < |items| && IsBindable(items[i].kind) &&
    forall j | 0 <= j < |items| && j != i :: !(items[j].kind == items[i].kind && items[j].reference == items[i].reference)
  }

  /** The user message is the envelope of an item, with its digests and the digested text. */
  predicate Carries(codec: Codec, m: Message, item: Item) {
    m.role == "user" && codec.envelope(m.content).Some? &&
    var e := codec.envelope(m.content).value;
    e.section == CONTEXT && !e.authority && e.kind == item.kind && e.reference == item.reference && !Blank(e.reference) &&
    e.sha == item.sha && e.sourceSha == item.sourceSha && e.text.Some? && codec.digest(e.text.value) == item.sha
  }

  /** The envelope of a unique item is kept. */
  lemma UniqueIsKept(st: Setting, items: seq<Item>, i: nat, m: Message)
    requires Lawful(st.codec) && st.allowed.Some? && BindsManifest(st.allowed.value, items)
    requires IsUnique(items, i) && Carries(st.codec, m, items[i])
    ensures IsKept(st, m)
  {
    UniqueItemIsBound(items, i);
    CanonicalIffBound(st.codec, m.content, items, st.allowed.value);
    OneSection(st, m);
  }

  /** The place of a kept message among the kept ones. */
  lemma KeptAt(st: Setting, body: seq<Message>, j: nat)
    requires j < |body| && IsKept(st, body[j])
    ensures var p := |Canonical(st, body[..j])|; p < |Canonical(st, body)| && Canonical(st, body)[p] == body[j]
    ensures forall k | 0 <= k < j && IsKept(st, body[k]) :: |Canonical(st, body[..k])| < |Canonical(st, body[..j])|
  {
    assert body == body[..j + 1] + body[j + 1..] && body[..j + 1][..j] == body[..j];
    CanonicalJoins(st, body[..j + 1], body[j + 1..]);
    forall k | 0 <= k < j && IsKept(st, body[k]) ensures |Canonical(st, body[..k])| < |Canonical(st, body[..j])| {
      assert body[..j] == body[..k + 1] + body[k + 1..j] && body[..k + 1][..k] == body[..k];
      CanonicalJoins(st, body[..k + 1], body[k + 1..j]);
    }
  }

  /** Over any number of compactions and appended turns, the envelope of an item whose
      kind and reference are unique in the manifest is still in the conversation, word
      for word, and such envelopes keep their order among the kept messages. */
  lemma DeclaredContextSurvives(st: Setting, items: seq<Item>, conv: seq<Message>, steps: seq<Step>, i: nat, j: nat)
    requires Lawful(st.codec) && st.allowed.Some? && BindsManifest(st.allowed.value, items) && Run(st, conv, steps)
    requires IsUnique(items, i) && j < |Body(conv)| && Carries(st.codec, Body(conv)[j], items[i])
    ensures var m, kept := Body(conv)[j], Canonical(st, Body(After(conv, steps)));
            var p := |Canonical(st, Body(conv)[..j])|;
            p < |kept| && kept[p] == m && m in After(conv, steps) &&
            forall k | 0 <= k < j && IsKept(st, Body(conv)[k]) :: |Canonical(st, Body(conv)[..k])| < p
  {
    UniqueIsKept(st, items, i, Body(conv)[j]);
    KeptAt(st, Body(conv), j);
    ContextSurvives(st, conv, steps);
    CanonicalFrom(st, Body(After(conv, steps)));
    assert Canonical(st, Body(After(conv, steps)))[|Canonical(st, Body(conv)[..j])|] in Canonical(st, Body(After(conv, steps)));
  }

  // ---------------------------------------------------------- what a checkpoint names

  function ReferenceOf(st: Setting, m: Message): string {
    var r := CanonicalReference(st.codec, m.content, st.allowed);
    if r.None? then "" else r.value
  }

  function ReferencesOf(st: Setting, ms: seq<Message>): set<string> { set m: Message | m in ms :: ReferenceOf(st, m) }

  lemma ReferencesSnoc(st: Setting, ms: seq<Message>, m: Message)
    ensures ReferencesOf(st, ms + [m]) == ReferencesOf(st, ms) + {ReferenceOf(st, m)}
  {
    var l, r := ReferencesOf(st, ms + [m]), ReferencesOf(st, ms) + {ReferenceOf(st, m)};
    forall x | x in r ensures x in l {
      if x == ReferenceOf(st, m) {
        assert m in ms + [m];
      } else {
        var y :| y in ms && ReferenceOf(st, y) == x;
        assert y in ms + [m];
      }
    }
  }

  lemma {:induction false} KeptReferencesAre(st: Setting, body: seq<Message>)
    ensures KeptReferences(st, body) == ReferencesOf(st, Canonical(st, body))
  {
    if body != [] {
      var front, m := body[..|body| - 1], body[|body| - 1];
      KeptReferencesAre(st, front);
      if IsKept(st, m) { ReferencesSnoc(st, Canonical(st, front), m); }
    }
  }

  /** After any run, a new checkpoint names exactly the kept envelopes, sorted: those
      there from the start and those appended. No earlier checkpoint can add one. */
  lemma CheckpointNamesKept(st: Setting, conv: seq<Message>, steps: seq<Step>, target: int, out: seq<Message>, cp: Checkpoint)
    requires Lawful(st.codec) && Run(st, conv, steps)
    requires CompactsTo(st, target, After(conv, steps), out, cp) && Estimate(After(conv, steps)) > target
    ensures cp.references == Sorted(ReferencesOf(st, Canonical(st, Body(conv)) + Canonical(st, Appended(steps))))
  {
    ContextSurvives(st, conv, steps);
    CompactedHeader(st, target, After(conv, steps), out, cp);
    KeptReferencesAre(st, Body(After(conv, steps)));
  }

  // ------------------------------------------------------------ the user's own inputs

  lemma PartOfPart(r: seq<string>, s: seq<string>, t: seq<string>)
    requires IsRecentPart(r, s) && IsRecentPart(s, t)
    ensures IsRecentPart(r, t)
  {
  }

  lemma PartGrows(r: seq<string>, s: seq<string>, more: seq<string>)
    requires IsRecentPart(r, s)
    ensures IsRecentPart(r + more, s + more)
  {
  }

  lemma CutIsRecentPart(codec: Codec, head: seq<Message>, target: int, draft: Checkpoint, cp: Checkpoint)
    requires CutFrom(codec, head, target, draft, cp)
    ensures IsRecentPart(cp.retained, draft.retained)
  {
    if DroppedOldest(codec, head, target, draft, cp.retained) {
      DroppedIsPart(codec, head, target, draft, cp.retained);
    } else if CutLatest(codec, head, target, draft, cp.retained) {
      OneIsPart(cp.retained, draft.retained);
    }
  }

  lemma DroppedIsPart(codec: Codec, head: seq<Message>, target: int, draft: Checkpoint, retained: seq<string>)
    requires DroppedOldest(codec, head, target, draft, retained)
    ensures IsRecentPart(retained, draft.retained)
  {
  }

  lemma OneIsPart(retained: seq<string>, all: seq<string>)
    requires all != [] && |retained| == 1 && retained[0] <= all[|all| - 1]
    ensures IsRecentPart(retained, all)
  {
  }

  lemma StepKeepsRecent(st: Setting, conv: seq<Message>, s: Step, all: seq<string>)
    requires Lawful(st.codec) && Legal(st, conv, s) && IsRecentPart(Inputs(st, Body(conv)), all)
    ensures IsRecentPart(Inputs(st, Body(Apply(conv, s))), all + if s.Append? then Inputs(st, s.ms) else [])
  {
    match s
    case Append(ms) =>
      AppendKeepsPrefix(conv, ms);
      InputsJoin(st, Body(conv), ms);
      PartGrows(Inputs(st, Body(conv)), all, Inputs(st, ms));
    case Compact(target, out, cp) =>
      assert all + [] == all;
      if Estimate(conv) > target {
        CompactedReadsBack(st, target, conv, out, cp);
        CompactionKeepsRecent(st, target, conv, out, cp);
        PartOfPart(cp.retained, Inputs(st, Body(conv)), all);
      }
  }

  lemma LastStepKeepsRecent(st: Setting, conv: seq<Message>, steps: seq<Step>, all: seq<string>)
    requires Lawful(st.codec) && Run(st, conv, steps) && steps != []
    requires IsRecentPart(Inputs(st, Body(After(conv, steps[..|steps| - 1]))), all)
    ensures var s := steps[|steps| - 1];
            IsRecentPart(Inputs(st, Body(After(conv, steps))), all + if s.Append? then Inputs(st, s.ms) else [])
  {
    StepKeepsRecent(st, After(conv, steps[..|steps| - 1]), steps[|steps| - 1], all);
  }

  lemma LastKeepsRecent(st: Setting, conv: seq<Message>, steps: seq<Step>, start: seq<string>)
    requires Lawful(st.codec) && Run(st, conv, steps) && steps != []
    requires var front := steps[..|steps| - 1];
             IsRecentPart(Inputs(st, Body(After(conv, front))), start + Inputs(st, Appended(front)))
    ensures IsRecentPart(Inputs(st, Body(After(conv, steps))), start + Inputs(st, Appended(steps)))
  {
    var front, s := steps[..|steps| - 1], steps[|steps| - 1];
    var more, added := Inputs(st, Appended(front)), if s.Append? then Inputs(st, s.ms) else [];
    AppendedInputs(st, steps);
    Regroup(start, more, added);
    LastStepKeepsRecent(st, conv, steps, start + more);
  }

  /** The inputs still held are the latest ones, in order, with at most the oldest of
      them cut, over any number of compactions. */
  lemma {:induction false} InputsAreRecent(st: Setting, conv: seq<Message>, steps: seq<Step>)
    requires Lawful(st.codec) && Run(st, conv, steps)
    ensures IsRecentPart(Inputs(st, Body(After(conv, steps))), Inputs(st, Body(conv)) + Inputs(st, Appended(steps)))
  {
    var start := Inputs(st, Body(conv));
    if steps == [] {
      assert start + [] == start;
    } else {
      InputsAreRecent(st, conv, steps[..|steps| - 1]);
      LastKeepsRecent(st, conv, steps, start);
    }
  }

  lemma AppendedInputs(st: Setting, steps: seq<Step>)
    requires steps != []
    ensures var front, s := steps[..|steps| - 1], steps[|steps| - 1];
            Inputs(st, Appended(steps)) == Inputs(st, Appended(front)) + if s.Append? then Inputs(st, s.ms) else []
  {
    var front, s := steps[..|steps| - 1], steps[|steps| - 1];
    if s.Append? { InputsJoin(st, Appended(front), s.ms); } else { assert Appended(front) + [] == Appended(front); }
  }

  lemma CompactionKeepsRecent(st: Setting, target: int, ms: seq<Message>, out: seq<Message>, cp: Checkpoint)
    requires CompactsTo(st, target, ms, out, cp) && Estimate(ms) > target
    ensures IsRecentPart(cp.retained, Inputs(st, Body(ms)))
  {
    var draft := Draft(st, Body(ms));
    CutIsRecentPart(st.codec, Head(st, ms), target, draft, cp);
    RecentIsRecentPart(Inputs(st, Body(ms)), MAXIMUM_RETAINED_USER_TOKENS);
    PartOfPart(cp.retained, draft.retained, Inputs(st, Body(ms)));
  }
}
