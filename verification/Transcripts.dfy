/** What a native tool conversation sends: well-paired requests that fit, each following
    from the prompt, the answers and the tool results before it. */
module Transcripts {
  import opened Wrappers
  import opened Compaction
  import CompactionRuns
  import opened Texts

  const MAXIMUM_NATIVE_TOOL_ROUNDS := 8
  const MAXIMUM_TOOL_CALLS := 64
  const SUBMISSION_TOOL := "repository.submission.commit"

  datatype LoopError =
    | InvalidRequest | OutputSchema | UnknownTool | ToolRoundsExhausted | ToolFailed | ToolResultInvalid
    | OutputInvalid | ContextExceeded | Unavailable

  datatype ModelCall = ModelCall(requestId: string, window: nat, threshold: int, maxOutput: nat)

  datatype Response = Response(content: string, calls: seq<ToolCall>, interventions: seq<string>, interventionId: string)

  /** What the provider does with a call: it fails, perhaps on the answer's schema, or it answers. */
  datatype Outcome = Failed(schema: bool) | Answered(response: Response)

  /** What is given to the provider; overhead is what tools and schema cost. */
  datatype Request = Request(call: ModelCall, messages: seq<Message>, overhead: nat, tools: bool, schema: bool)

  /** Why a request is made: to open a round, after an operator intervened, or as the last one. */
  datatype Cause = Opening | Again | Last

  /** One request with the conversation it was made for and what came of it. */
  datatype Turn = Turn(conversation: seq<Message>, request: Request, outcome: Outcome, cause: Cause, round: nat)

  // ------------------------------------------------------------- well-paired requests

  function IsResult(m: Message, c: ToolCall): bool { m.role == "tool" && m.callId == c.id && m.calls == [] }

  predicate Answers(results: seq<Message>, calls: seq<ToolCall>) {
    |results| == |calls| && forall i | 0 <= i < |calls| :: IsResult(results[i], calls[i])
  }

  /** Each tool message answers a call of the assistant message before it, in order
      and exactly once, and every call is answered. */
  predicate Paired(ms: seq<Message>) {
    ms == [] || (Leads(ms, |ms[0].calls|) && Paired(ms[|ms[0].calls| + 1..]))
  }

  /** The first message has n calls, answered by the n messages after it. */
  predicate Leads(ms: seq<Message>, n: nat)
    requires ms != []
  {
    n == |ms[0].calls| < |ms| && ms[0].role != "tool" && (n > 0 ==> ms[0].role == "assistant") &&
    Answers(ms[1..n + 1], ms[0].calls)
  }

  predicate Plain(m: Message) { m.role != "tool" && m.calls == [] }

  lemma SliceJoin<T>(a: seq<T>, b: seq<T>, n: nat)
    requires n < |a|
    ensures (a + b)[1..n + 1] == a[1..n + 1] && (a + b)[n + 1..] == a[n + 1..] + b && (a + b)[0] == a[0]
  {
  }

  lemma {:induction false} PairedJoin(a: seq<Message>, b: seq<Message>)
    requires Paired(a) && Paired(b)
    ensures Paired(a + b)
    decreases |a|
  {
    if a == [] {
      assert a + b == b;
    } else {
      var n := |a[0].calls|;
      PairedJoin(a[n + 1..], b);
      SliceJoin(a, b, n);
      assert Leads(a + b, n);
    }
  }

  lemma {:induction false} PlainIsPaired(ms: seq<Message>)
    requires forall m <- ms :: Plain(m)
    ensures Paired(ms)
  {
    if ms != [] {
      assert Plain(ms[0]);
      assert ms[1..1] == [];
      PlainIsPaired(ms[1..]);
    }
  }

  lemma PairedPlus(ms: seq<Message>, m: Message)
    requires Paired(ms) && Plain(m)
    ensures Paired(ms + [m])
  {
    PlainIsPaired([m]);
    PairedJoin(ms, [m]);
  }

  lemma PairedRound(ms: seq<Message>, calls: seq<ToolCall>, results: seq<Message>)
    requires Paired(ms) && calls != [] && Answers(results, calls)
    ensures Paired(ms + [Message("assistant", "", calls, "")] + results)
  {
    var block := [Message("assistant", "", calls, "")] + results;
    assert block[1..|calls| + 1] == results;
    assert Leads(block, |calls|);
    assert |block[|calls| + 1..]| == 0 && Paired(block[|calls| + 1..]);
    PairedJoin(ms, block);
    assert ms + [Message("assistant", "", calls, "")] + results == ms + block;
  }

  /** Only assistant messages of a paired conversation carry calls. */
  lemma {:induction false} SpeakersPlain(ms: seq<Message>, i: nat)
    requires Paired(ms) && i < |ms| && ms[i].role != "assistant"
    ensures ms[i].calls == []
    decreases |ms|
  {
    var n := |ms[0].calls|;
    if 0 < i <= n {
      assert IsResult(ms[1..n + 1][i - 1], ms[0].calls[i - 1]);
    } else if i > n {
      SpeakersPlain(ms[n + 1..], i - n - 1);
    }
  }

  /** Compaction leaves no result without its call. */
  lemma CompactionStaysPaired(st: Setting, target: int, ms: seq<Message>, out: seq<Message>, cp: Checkpoint)
    requires Paired(ms) && CompactionRuns.CompactsTo(st, target, ms, out, cp)
    ensures Paired(out)
  {
    if Estimate(ms) > target {
      CompactionRuns.CanonicalFrom(st, Body(ms));
      forall m: Message | m in out ensures Plain(m) {
        if m in Prefix(ms) || m in Canonical(st, Body(ms)) {
          assert m in ms;
          var i :| 0 <= i < |ms| && ms[i] == m;
          SpeakersPlain(ms, i);
        }
      }
      PlainIsPaired(out);
    }
  }

  // ------------------------------------------------------------------- context limits

  function EffectiveContextTokens(window: nat): nat { window * 95 / 100 }

  function ClampCompactionThreshold(window: nat, configured: int): int {
    var maximum := window * 90 / 100;
    if configured <= 0 || configured > maximum then maximum else configured
  }

  /** A threshold is what was configured, if that is within nine tenths of the window,
      and otherwise the most that is. */
  lemma ThresholdLaw(window: nat, configured: int)
    ensures var t := ClampCompactionThreshold(window, configured);
            0 <= 10 * t <= 9 * window &&
            if 0 < configured && 10 * configured <= 9 * window then t == configured else 10 * (t + 1) > 9 * window
  {
  }

  /** The request and the answer it asks for take at most 95 hundredths of the window,
      unless the window leaves no room for compaction to start. */
  ghost predicate Fits(call: ModelCall, messages: seq<Message>, overhead: nat) {
    ClampCompactionThreshold(call.window, call.threshold) > call.maxOutput ==>
      100 * (Estimate(messages) + overhead + call.maxOutput) <= 95 * call.window
  }

  lemma WithinWindow(window: nat, n: int)
    ensures n <= EffectiveContextTokens(window) ==> 100 * n <= 95 * window
  {
  }

  lemma BelowThresholdFits(call: ModelCall, messages: seq<Message>, overhead: nat)
    requires !MustCompact(call, messages, overhead)
    ensures Fits(call, messages, overhead)
  {
    ThresholdLaw(call.window, call.threshold);
  }

  lemma WithinTargetFits(call: ModelCall, messages: seq<Message>, overhead: nat)
    requires Estimate(messages) <= Target(call, overhead)
    ensures Fits(call, messages, overhead)
  {
    WithinWindow(call.window, Estimate(messages) + overhead + call.maxOutput);
  }

  /** Compaction starts when the estimate reaches the threshold. */
  predicate MustCompact(call: ModelCall, messages: seq<Message>, overhead: nat) {
    var threshold := ClampCompactionThreshold(call.window, call.threshold);
    threshold > call.maxOutput && Estimate(messages) + overhead + call.maxOutput >= threshold
  }

  /** What the window leaves to the messages of a request. */
  function Target(call: ModelCall, overhead: nat): int { EffectiveContextTokens(call.window) - call.maxOutput - overhead }

  /** The context that a run declares, and the digest of its manifest. */
  datatype Declared = Declared(codec: Codec, items: seq<Item>, sha: string)

  /** The messages sent for a conversation: the conversation, or its compaction to what the window leaves. */
  ghost predicate SentFor(d: Declared, call: ModelCall, conversation: seq<Message>, overhead: nat, messages: seq<Message>) {
    if !MustCompact(call, conversation, overhead) then messages == conversation
    else exists allowed, cp :: SentAs(d, call, conversation, overhead, messages, allowed, cp)
  }

  ghost predicate SentAs(d: Declared, call: ModelCall, conversation: seq<Message>, overhead: nat,
                         messages: seq<Message>, allowed: Bindings, cp: Checkpoint) {
    CompactionRuns.BindsManifest(allowed, d.items) &&
    CompactionRuns.CompactsTo(Setting(d.codec, d.sha, Some(allowed)), Target(call, overhead), conversation, messages, cp)
  }

  // -------------------------------------------------------------------- the transcript

  /** What operators said, as messages. */
  function Spoken(texts: seq<string>): seq<Message> {
    if texts == [] then []
    else
      var text := texts[|texts| - 1];
      Spoken(texts[..|texts| - 1]) + if text == "" then [] else [Message("user", text, [], "")]
  }

  /** The texts at the given places, and no others, are not empty. */
  predicate NonEmptyAt(texts: seq<string>, places: seq<nat>) {
    (forall i | 0 <= i < |places| :: places[i] < |texts| && texts[places[i]] != "") &&
    (forall i, k | 0 <= i < k < |places| :: places[i] < places[k]) &&
    forall j: nat | j < |texts| && texts[j] != "" :: j in places
  }

  /** Every intervention that is not empty is said by the user, in order, and nothing else is. */
  lemma {:induction false} SpokenLaw(texts: seq<string>) returns (places: seq<nat>)
    ensures NonEmptyAt(texts, places) && |Spoken(texts)| == |places|
    ensures forall i | 0 <= i < |places| :: Spoken(texts)[i] == Message("user", texts[places[i]], [], "")
  {
    if texts == [] {
      places := [];
    } else {
      var last := |texts| - 1;
      var front := SpokenLaw(texts[..last]);
      places := front + if texts[last] == "" then [] else [last];
      forall j: nat | j < |texts| && texts[j] != "" ensures j in places {
        if j < last { assert texts[..last][j] != "" && j in front; }
      }
    }
  }

  /** An operator intervened in the answer, which is then asked for again. */
  predicate Intervened(a: Response) { a.interventionId != "" && a.content != "" }

  /** What was sent and what operators said while it was answered. */
  function Said(t: Turn, a: Response): seq<Message> { t.request.messages + Spoken(a.interventions) }

  /** A repeated request: the conversation goes on with the answer that was intervened in. */
  ghost predicate Repeats(was: Turn, now: Turn) {
    was.outcome.Answered? && var a := was.outcome.response;
    Intervened(a) && now.cause == Again && now.round == was.round &&
    now.conversation == Said(was, a) + [Message("assistant", a.content, [], "")] &&
    now.request.call == was.request.call.(requestId := a.interventionId) &&
    now.request.tools == was.request.tools && now.request.schema == was.request.schema
  }

  /** The conversation goes on with the calls of an answer and what each of them, the
      m-th to be invoked and those after it, gave. */
  ghost predicate ResultsAt(said: seq<Message>, calls: seq<ToolCall>, now: seq<Message>,
                            invoked: seq<string>, results: seq<Option<string>>, m: nat) {
    m + |calls| <= |invoked| && m + |calls| <= |results| && |now| == |said| + 1 + |calls| && said <= now &&
    now[|said|] == Message("assistant", "", calls, "") &&
    forall k | 0 <= k < |calls| ::
      invoked[m + k] == calls[k].id && results[m + k].Some? &&
      now[|said| + 1 + k] == Message("tool", results[m + k].value, [], calls[k].id)
  }

  ghost predicate HasResults(said: seq<Message>, calls: seq<ToolCall>, now: seq<Message>,
                             invoked: seq<string>, results: seq<Option<string>>) {
    exists m: nat :: ResultsAt(said, calls, now, invoked, results, m)
  }

  /** The first request of a round, made with tools, for what the round before left. */
  ghost predicate OpensAfter(was: Turn, now: Turn, invoked: seq<string>, results: seq<Option<string>>) {
    was.outcome.Answered? && was.request.tools && var a := was.outcome.response;
    !Intervened(a) && a.calls != [] && now.cause == Opening && now.round == was.round + 1 &&
    HasResults(Said(was, a), a.calls, now.conversation, invoked, results)
  }

  /** The last request, made without tools: after an answer without calls it follows that
      answer, and after a broken one it is made for what the round began with. */
  ghost predicate EndsAfter(sent: seq<Turn>, i: nat, now: Turn)
    requires 0 < i <= |sent|
  {
    var was := sent[i - 1];
    was.request.tools && now.cause == Last && now.round == was.round &&
    match was.outcome
    case Answered(a) => !Intervened(a) && a.calls == [] && now.conversation == Said(was, a)
    case Failed(schema) =>
      schema && exists j: nat | j < i :: OpenedFor(sent[j], was.round, now.conversation)
  }

  predicate OpenedFor(t: Turn, round: nat, conversation: seq<Message>) {
    t.cause == Opening && t.round == round && t.conversation == conversation
  }

  /** The call that a request of the loop's own carries. */
  ghost predicate OwnCall(call: ModelCall, t: Turn) {
    match t.cause
    case Opening => t.request.call == call.(requestId := RoundId(call.requestId, t.round)) && t.request.tools && !t.request.schema
    case Last => t.request.call == call.(requestId := FinalId(call.requestId)) && !t.request.tools && t.request.schema
    case Again => true
  }

  /** The i-th request follows from those before it. */
  ghost predicate Next(call: ModelCall, prompt: seq<Message>, sent: seq<Turn>, i: nat, now: Turn,
                       invoked: seq<string>, results: seq<Option<string>>)
    requires i <= |sent|
  {
    OwnCall(call, now) &&
    if i == 0 then now.cause == Opening && now.round == 0 && now.conversation == prompt
    else Repeats(sent[i - 1], now) || OpensAfter(sent[i - 1], now, invoked, results) || EndsAfter(sent, i, now)
  }

  /** Every request of a conversation follows from the prompt and the requests before it. */
  ghost predicate Transcript(call: ModelCall, prompt: seq<Message>, sent: seq<Turn>,
                             invoked: seq<string>, results: seq<Option<string>>) {
    forall i: nat {:trigger Next(call, prompt, sent, i, sent[i], invoked, results)} | i < |sent| ::
      Next(call, prompt, sent, i, sent[i], invoked, results)
  }

  /** One call of the loop adds one request and its repetitions. */
  ghost predicate Chain(before: seq<Turn>, after: seq<Turn>) {
    before <= after && forall i | |before| < i < |after| :: Repeats(after[i - 1], after[i])
  }

  lemma NextSame(call: ModelCall, prompt: seq<Message>, before: seq<Turn>, after: seq<Turn>, i: nat, now: Turn,
                 invoked: seq<string>, results: seq<Option<string>>)
    requires before <= after && i <= |before| && Next(call, prompt, before, i, now, invoked, results)
    ensures Next(call, prompt, after, i, now, invoked, results)
  {
    if i > 0 { assert before[i - 1] == after[i - 1]; }
  }

  lemma TranscriptOn(call: ModelCall, prompt: seq<Message>, before: seq<Turn>, after: seq<Turn>,
                     invoked: seq<string>, results: seq<Option<string>>)
    requires Transcript(call, prompt, before, invoked, results) && Chain(before, after)
    requires |after| > |before| ==> Next(call, prompt, before, |before|, after[|before|], invoked, results)
    ensures Transcript(call, prompt, after, invoked, results)
  {
    forall i: nat | i < |after| ensures Next(call, prompt, after, i, after[i], invoked, results) {
      if i < |before| {
        assert before[i] == after[i];
        assert Next(call, prompt, before, i, before[i], invoked, results);
        NextSame(call, prompt, before, after, i, after[i], invoked, results);
      } else if i == |before| {
        NextSame(call, prompt, before, after, i, after[i], invoked, results);
      } else {
        assert Repeats(after[i - 1], after[i]);
      }
    }
  }

  lemma ResultsStay(said: seq<Message>, calls: seq<ToolCall>, now: seq<Message>, invoked: seq<string>, more: seq<string>,
                    results: seq<Option<string>>)
    requires HasResults(said, calls, now, invoked, results)
    ensures HasResults(said, calls, now, invoked + more, results)
  {
    var m: nat :| ResultsAt(said, calls, now, invoked, results, m);
    assert ResultsAt(said, calls, now, invoked + more, results, m);
  }

  lemma NextStays(call: ModelCall, prompt: seq<Message>, sent: seq<Turn>, i: nat, now: Turn,
                  invoked: seq<string>, more: seq<string>, results: seq<Option<string>>)
    requires i <= |sent| && Next(call, prompt, sent, i, now, invoked, results)
    ensures Next(call, prompt, sent, i, now, invoked + more, results)
  {
    if i > 0 && OpensAfter(sent[i - 1], now, invoked, results) {
      var a := sent[i - 1].outcome.response;
      ResultsStay(Said(sent[i - 1], a), a.calls, now.conversation, invoked, more, results);
    }
  }

  lemma FirstIsPrompt(call: ModelCall, prompt: seq<Message>, sent: seq<Turn>, invoked: seq<string>, results: seq<Option<string>>)
    requires Transcript(call, prompt, sent, invoked, results) && sent != []
    ensures sent[0].conversation == prompt
  {
    assert Next(call, prompt, sent, 0, sent[0], invoked, results);
  }

  lemma HowItFollows(call: ModelCall, prompt: seq<Message>, sent: seq<Turn>, i: nat,
                     invoked: seq<string>, results: seq<Option<string>>)
    requires Transcript(call, prompt, sent, invoked, results) && 0 < i < |sent|
    ensures sent[i - 1].outcome.Answered? ==>
              Repeats(sent[i - 1], sent[i]) || OpensAfter(sent[i - 1], sent[i], invoked, results) ||
              sent[i].conversation == Said(sent[i - 1], sent[i - 1].outcome.response)
    ensures sent[i - 1].outcome.Failed? ==> exists j: nat | j < i :: OpenedFor(sent[j], sent[i - 1].round, sent[i].conversation)
  {
    assert Next(call, prompt, sent, i, sent[i], invoked, results);
  }

  lemma TranscriptStays(call: ModelCall, prompt: seq<Message>, sent: seq<Turn>,
                        invoked: seq<string>, more: seq<string>, results: seq<Option<string>>)
    requires Transcript(call, prompt, sent, invoked, results)
    ensures Transcript(call, prompt, sent, invoked + more, results)
  {
    forall i: nat | i < |sent| ensures Next(call, prompt, sent, i, sent[i], invoked + more, results) {
      assert Next(call, prompt, sent, i, sent[i], invoked, results);
      NextStays(call, prompt, sent, i, sent[i], invoked, more, results);
    }
  }

  lemma PrefixStays<T>(p: seq<T>, a: seq<T>, b: seq<T>)
    requires p <= a
    ensures p <= a + b
  {
  }

  lemma PrefixOfPrefix<T>(p: seq<T>, a: seq<T>, b: seq<T>)
    requires p <= a <= b
    ensures p <= b
  {
  }

  /** A request that follows from an answer goes on from what was sent before it. */
  lemma GrowsFromSent(was: Turn, now: Turn, invoked: seq<string>, results: seq<Option<string>>, p: seq<Message>)
    requires was.outcome.Answered? && p <= was.request.messages
    requires Repeats(was, now) || OpensAfter(was, now, invoked, results) || now.conversation == Said(was, was.outcome.response)
    ensures p <= now.conversation
  {
    var a := was.outcome.response;
    var said := Said(was, a);
    PrefixStays(p, was.request.messages, Spoken(a.interventions));
    if Repeats(was, now) {
      PrefixStays(p, said, [Message("assistant", a.content, [], "")]);
    } else if OpensAfter(was, now, invoked, results) {
      var m: nat :| ResultsAt(said, a.calls, now.conversation, invoked, results, m);
      PrefixOfPrefix(p, said, now.conversation);
    }
  }

  /** While nothing is compacted, the prompt stands at the beginning of every request. */
  lemma {:induction false} PromptStays(call: ModelCall, prompt: seq<Message>, sent: seq<Turn>, i: nat,
                                       invoked: seq<string>, results: seq<Option<string>>)
    requires Transcript(call, prompt, sent, invoked, results) && i < |sent|
    requires forall j | 0 <= j < i :: sent[j].request.messages == sent[j].conversation
    ensures prompt <= sent[i].conversation
  {
    if i == 0 {
      FirstIsPrompt(call, prompt, sent, invoked, results);
    } else {
      HowItFollows(call, prompt, sent, i, invoked, results);
      if sent[i - 1].outcome.Answered? {
        PromptStays(call, prompt, sent, i - 1, invoked, results);
        GrowsFromSent(sent[i - 1], sent[i], invoked, results, prompt);
      } else {
        var j: nat :| j < i && OpenedFor(sent[j], sent[i - 1].round, sent[i].conversation);
        PromptStays(call, prompt, sent, j, invoked, results);
      }
    }
  }

  // ---------------------------------------------------------------------- request ids

  function RoundId(base: string, round: nat): string {
    if round == 0 then base else base + "." + Decimal(round + 1)
  }

  lemma FinalIsNoRound(asked: seq<string>, base: string, k: nat, n: nat)
    requires asked == RoundIds(base, k) + [FinalId(base)]
    ensures asked != RoundIds(base, n)
  {
    if |asked| == n {
      RoundIdsDiffer(base, 0, k + 1);
      if k > 0 { RoundIdsDiffer(base, 0, k); }
      assert asked[k] == FinalId(base);
      assert RoundIds(base, n)[k] == RoundId(base, k);
    }
  }

  /** The own ids asked for: those of n rounds, and perhaps the last. */
  predicate Asked(asked: seq<string>, base: string, n: nat) {
    asked == RoundIds(base, n) || asked == RoundIds(base, n) + [FinalId(base)]
  }

  function FinalId(base: string): string { base + ".final" }

  function RoundIds(base: string, n: nat): seq<string> { seq(n, k requires 0 <= k < n => RoundId(base, k)) }

  lemma RoundIdsDiffer(base: string, i: nat, j: nat)
    requires i < j
    ensures RoundId(base, i) != RoundId(base, j) && RoundId(base, j) != FinalId(base) && base != FinalId(base)
  {
    Tails(base, i);
    Tails(base, j);
    var dj := Decimal(j + 1);
    assert ("." + dj)[1..] == dj && ".final"[1..] == "final";
    assert i > 0 ==> ("." + Decimal(i + 1))[1..] == Decimal(i + 1);
    assert |FinalId(base)| == |base| + 6 && |RoundId(base, j)| == |base| + 1 + |dj|;
  }

  /** What a later round's id adds to the base: a dot and digits. */
  lemma Tails(base: string, round: nat)
    ensures round > 0 ==> RoundId(base, round)[|base|..] == "." + Decimal(round + 1)
    ensures ParseIndex(Decimal(round + 1)) == Some(round + 1)
    ensures FinalId(base)[|base|..] == ".final" && ParseIndex("final").None?
  {
    ParseDecimal(round + 1);
    assert 'f' in "final";
    if round > 0 { Tail(base, "." + Decimal(round + 1)); }
    Tail(base, ".final");
  }

  lemma Tail(base: string, more: string)
    ensures (base + more)[|base|..] == more
  {
  }

  /** The loop's own request ids are distinct. */
  lemma OwnIdsDistinct(base: string, n: nat)
    requires n > 0
    ensures NoRepeats(RoundIds(base, n) + [FinalId(base)])
  {
    var ids := RoundIds(base, n) + [FinalId(base)];
    forall i, j | 0 <= i < j < |ids| ensures ids[i] != ids[j] {
      if j < n { RoundIdsDiffer(base, i, j); } else { RoundIdsDiffer(base, 0, i + 1); RoundIdsDiffer(base, 0, if i == 0 then 1 else i); }
    }
  }

  // ------------------------------------------------------------------------- the loop

  function Ids(calls: seq<ToolCall>): seq<string> { seq(|calls|, i requires 0 <= i < |calls| => calls[i].id) }

  /** Every request is well paired, fits, and is what the conversation it is made for asks for. */
  ghost predicate SentWell(d: Declared, sent: seq<Turn>) {
    forall i {:trigger TurnWell(d, sent[i])} | 0 <= i < |sent| :: TurnWell(d, sent[i])
  }

  ghost predicate TurnWell(d: Declared, t: Turn) {
    Paired(t.request.messages) && Fits(t.request.call, t.request.messages, t.request.overhead) &&
    SentFor(d, t.request.call, t.conversation, t.request.overhead, t.request.messages)
  }

  /** The last call before a failure that no last request follows: it failed, though not
      on the schema, or was intervened in and not repeated. */
  predicate Halted(t: Turn) { t.outcome == Failed(false) || (t.outcome.Answered? && Intervened(t.outcome.response)) }

  /** What the requests made since `start` came to: the last of them was answered, or it
      broke on the schema, or no request is to follow it. */
  ghost predicate Came(start: seq<Turn>, sent: seq<Turn>, schema: bool, tools: bool, round: nat,
                       r: Result<(Response, seq<Message>), LoopError>) {
    if r.Ok? || r.error == OutputSchema then
      |sent| > |start| && var t := sent[|sent| - 1];
      t.request.tools == tools && t.request.schema == schema && t.round == round &&
      (if r.Ok? then t.outcome == Answered(r.value.0) && r.value.1 == Said(t, r.value.0) else t.outcome == Failed(true))
    else r.error != ToolRoundsExhausted && (|sent| > |start| ==> Halted(sent[|sent| - 1]))
  }

  /** A conversation may end without its last request: nothing was sent, or what was sent
      last failed, was intervened in, has calls, or is what the conversation gives. */
  predicate MayEnd(sent: seq<Turn>, r: Result<string, LoopError>) {
    sent == [] ||
    match sent[|sent| - 1].outcome
    case Failed(schema) => !schema
    case Answered(a) => Intervened(a) || a.calls != [] || r == Ok(a.content)
  }

  predicate NoneLast(sent: seq<Turn>) { forall i | 0 <= i < |sent| :: sent[i].cause != Last }

  lemma NoneLastOn(before: seq<Turn>, after: seq<Turn>)
    requires NoneLast(before) && Chain(before, after) && (|after| > |before| ==> after[|before|].cause != Last)
    ensures NoneLast(after)
  {
    forall i | 0 <= i < |after| ensures after[i].cause != Last {
      if i < |before| { assert after[i] == before[i]; } else if i > |before| { assert Repeats(after[i - 1], after[i]); }
    }
  }

  /** A request made for the conversation with this call. */
  ghost predicate MadeFor(t: Turn, conversation: seq<Message>, call: ModelCall, schema: bool, tools: bool, cause: Cause, round: nat) {
    t.conversation == conversation && t.request.call == call && t.request.schema == schema && t.request.tools == tools &&
    t.cause == cause && t.round == round
  }

  /** The next request of a conversation is to carry on from the answer that was intervened in. */
  ghost predicate GoesOn(was: Turn, conversation: seq<Message>, call: ModelCall, schema: bool, tools: bool, round: nat) {
    was.outcome.Answered? && var a := was.outcome.response;
    Intervened(a) && conversation == Said(was, a) + [Message("assistant", a.content, [], "")] &&
    call == was.request.call.(requestId := a.interventionId) &&
    was.request.tools == tools && was.request.schema == schema && was.round == round
  }

  /** Where one call of the loop stands before its next request: at its first request, or
      at a repetition. */
  ghost predicate Going(start: seq<Turn>, sent: seq<Turn>, messages: seq<Message>, first: ModelCall,
                        schema: bool, tools: bool, cause: Cause, round: nat,
                        conversation: seq<Message>, call: ModelCall, why: Cause) {
    Chain(start, sent) &&
    if |sent| == |start| then conversation == messages && call == first && why == cause
    else MadeFor(sent[|start|], messages, first, schema, tools, cause, round) &&
         why == Again && GoesOn(sent[|sent| - 1], conversation, call, schema, tools, round)
  }

  lemma RequestMade(start: seq<Turn>, before: seq<Turn>, after: seq<Turn>, messages: seq<Message>, first: ModelCall,
                    schema: bool, tools: bool, cause: Cause, round: nat,
                    conversation: seq<Message>, call: ModelCall, why: Cause)
    requires Going(start, before, messages, first, schema, tools, cause, round, conversation, call, why)
    requires before <= after && |after| == |before| + 1
    requires MadeFor(after[|before|], conversation, call, schema, tools, why, round)
    ensures Chain(start, after) && |after| > |start|
    ensures MadeFor(after[|start|], messages, first, schema, tools, cause, round)
  {
    forall i | |start| < i < |after| ensures Repeats(after[i - 1], after[i]) {
      if i < |before| { assert Repeats(before[i - 1], before[i]); }
    }
    if |before| > |start| { assert after[|start|] == before[|start|]; }
  }

  /** The repetition that an operator's intervention asks for. */
  lemma RequestRepeats(start: seq<Turn>, sent: seq<Turn>, messages: seq<Message>, first: ModelCall,
                       schema: bool, tools: bool, cause: Cause, round: nat, conversation: seq<Message>, call: ModelCall)
    requires Chain(start, sent) && |sent| > |start| && MadeFor(sent[|start|], messages, first, schema, tools, cause, round)
    requires GoesOn(sent[|sent| - 1], conversation, call, schema, tools, round)
    ensures Going(start, sent, messages, first, schema, tools, cause, round, conversation, call, Again)
  {
  }

  /** A round may open with these messages: they are the prompt, or what the last answer
      and its calls left. */
  ghost predicate Ready(prompt: seq<Message>, sent: seq<Turn>, round: nat, messages: seq<Message>,
                        invoked: seq<string>, results: seq<Option<string>>) {
    if sent == [] then messages == prompt && round == 0
    else
      var was := sent[|sent| - 1];
      was.outcome.Answered? && was.request.tools && was.round + 1 == round && var a := was.outcome.response;
      !Intervened(a) && a.calls != [] && HasResults(Said(was, a), a.calls, messages, invoked, results)
  }

  lemma RoundOn(call: ModelCall, prompt: seq<Message>, before: seq<Turn>, after: seq<Turn>, round: nat, messages: seq<Message>,
                invoked: seq<string>, results: seq<Option<string>>)
    requires Transcript(call, prompt, before, invoked, results) && Chain(before, after)
    requires Ready(prompt, before, round, messages, invoked, results)
    requires |after| > |before| ==>
               MadeFor(after[|before|], messages, call.(requestId := RoundId(call.requestId, round)), false, true, Opening, round)
    ensures Transcript(call, prompt, after, invoked, results)
  {
    TranscriptOn(call, prompt, before, after, invoked, results);
  }

  /** A round has been played: its last request was answered and not intervened in, or
      broke on the schema. */
  ghost predicate Played(sent: seq<Turn>, round: nat, messages: seq<Message>, r: Result<(Response, seq<Message>), LoopError>) {
    sent != [] && var was := sent[|sent| - 1];
    was.request.tools && was.round == round &&
    if r.Ok? then was.outcome == Answered(r.value.0) && !Intervened(r.value.0) && r.value.1 == Said(was, r.value.0)
    else was.outcome == Failed(true) && exists j: nat | j < |sent| :: OpenedFor(sent[j], round, messages)
  }

  lemma ReadyAfter(prompt: seq<Message>, sent: seq<Turn>, round: nat, response: Response, said: seq<Message>,
                   next: seq<Message>, invoked: seq<string>, results: seq<Option<string>>)
    requires Played(sent, round, said, Ok((response, said))) && response.calls != []
    requires HasResults(said, response.calls, next, invoked, results)
    ensures Ready(prompt, sent, round + 1, next, invoked, results)
  {
  }

  /** The last request after a round: for what its last answer left, or for what a round
      with a broken answer began with. */
  lemma LastOn(call: ModelCall, prompt: seq<Message>, before: seq<Turn>, after: seq<Turn>, round: nat,
               messages: seq<Message>, played: Result<(Response, seq<Message>), LoopError>, opening: seq<Message>,
               invoked: seq<string>, results: seq<Option<string>>)
    requires Transcript(call, prompt, before, invoked, results) && Chain(before, after)
    requires Played(before, round, opening, played)
    requires if played.Ok? then played.value.0.calls == [] && messages == played.value.1 else messages == opening
    requires |after| > |before| ==>
               MadeFor(after[|before|], messages, call.(requestId := FinalId(call.requestId)), true, false, Last, round)
    ensures Transcript(call, prompt, after, invoked, results)
  {
    TranscriptOn(call, prompt, before, after, invoked, results);
  }

  /** The end of a round: its calls and what each of them gave. */
  lemma RoundEnds(said: seq<Message>, calls: seq<ToolCall>, answers: seq<Message>, earlier: seq<string>,
                  results: seq<Option<string>>)
    requires Answers(answers, calls) && |earlier| + |calls| <= |results|
    requires forall i | 0 <= i < |calls| :: results[|earlier| + i] == Some(answers[i].content)
    ensures HasResults(said, calls, said + [Message("assistant", "", calls, "")] + answers, earlier + Ids(calls), results)
  {
    var now := said + [Message("assistant", "", calls, "")] + answers;
    var invoked := earlier + Ids(calls);
    forall k | 0 <= k < |calls|
      ensures invoked[|earlier| + k] == calls[k].id && results[|earlier| + k].Some? &&
              now[|said| + 1 + k] == Message("tool", results[|earlier| + k].value, [], calls[k].id)
    {
      assert IsResult(answers[k], calls[k]);
    }
    assert ResultsAt(said, calls, now, invoked, results, |earlier|);
  }

  /** The last answer is what the conversation gives. */
  ghost predicate AnsweredBy(t: Turn, value: string) {
    t.outcome.Answered? && t.outcome.response.calls == [] && t.outcome.response.content == value
  }

  lemma InvokedStays(start: seq<string>, calls: seq<ToolCall>, i: nat)
    requires i < |calls| && NoRepeats(Ids(calls)) && calls[i].id !in start
    ensures calls[i].id !in start + Ids(calls[..i])
    ensures start + Ids(calls[..i]) + [calls[i].id] == start + Ids(calls[..i + 1]) <= start + Ids(calls)
  {
    IdsGrow(calls, i);
    var ids := Ids(calls);
    assert ids[..i + 1] == Ids(calls[..i + 1]);
  }

  lemma IdsGrow(calls: seq<ToolCall>, i: nat)
    requires i < |calls|
    ensures Ids(calls[..i + 1]) == Ids(calls[..i]) + [calls[i].id]
    ensures Elements(Ids(calls[..i + 1])) == Elements(Ids(calls[..i])) + {calls[i].id}
    ensures NoRepeats(Ids(calls)) ==> calls[i].id !in Ids(calls[..i])
  {
    var ids := Ids(calls);
    assert forall j | 0 <= j < i :: Ids(calls[..i])[j] == ids[j];
    assert ids[i] == calls[i].id;
  }

  lemma CompactedFits(st: Setting, target: int, ms: seq<Message>, out: seq<Message>, cp: Checkpoint)
    requires CompactionRuns.CompactsTo(st, target, ms, out, cp)
    ensures Estimate(out) <= target
  {
  }

  /** A compaction to what the window leaves is what the conversation asks to be sent. */
  lemma CompactedAs(d: Declared, call: ModelCall, conversation: seq<Message>, overhead: nat, st: Setting,
                    messages: seq<Message>, cp: Checkpoint)
    requires Paired(conversation) && MustCompact(call, conversation, overhead)
    requires st.codec == d.codec && st.source == d.sha && st.allowed.Some?
    requires CompactionRuns.BindsManifest(st.allowed.value, d.items)
    requires CompactionRuns.CompactsTo(st, Target(call, overhead), conversation, messages, cp)
    ensures Paired(messages) && Fits(call, messages, overhead) && SentFor(d, call, conversation, overhead, messages)
  {
    CompactionStaysPaired(st, Target(call, overhead), conversation, messages, cp);
    CompactedFits(st, Target(call, overhead), conversation, messages, cp);
    WithinTargetFits(call, messages, overhead);
    assert st == Setting(d.codec, d.sha, Some(st.allowed.value));
    assert SentAs(d, call, conversation, overhead, messages, st.allowed.value, cp);
  }

  // ------------------------------------------------------- what every request contains

  /** The conversation still begins with the prompt's system messages and still holds,
      first and in order, the declared context that the prompt holds. */
  ghost predicate Keeps(st: Setting, prompt: seq<Message>, ms: seq<Message>) {
    Prefix(ms) == Prefix(prompt) && Canonical(st, Body(prompt)) <= Canonical(st, Body(ms))
  }

  lemma KeepsOn(st: Setting, prompt: seq<Message>, ms: seq<Message>, more: seq<Message>)
    requires Keeps(st, prompt, ms) && forall m <- more :: m.role != "system"
    ensures Keeps(st, prompt, ms + more)
  {
    CompactionRuns.AppendKeepsPrefix(ms, more);
    CompactionRuns.CanonicalJoins(st, Body(ms), more);
    PrefixStays(Canonical(st, Body(prompt)), Canonical(st, Body(ms)), Canonical(st, more));
  }

  lemma {:induction false} SpokenByUser(texts: seq<string>)
    ensures forall m <- Spoken(texts) :: m.role == "user"
  {
    if texts != [] { SpokenByUser(texts[..|texts| - 1]); }
  }

  lemma SameBindings(a: Bindings, b: Bindings, items: seq<Item>)
    requires CompactionRuns.BindsManifest(a, items) && CompactionRuns.BindsManifest(b, items)
    ensures a == b
  {
    forall k | k in a || k in b ensures k in a && k in b && a[k] == b[k] {
      assert (k.0, k.1) == k;
    }
  }

  lemma CompactionKeeps(st: Setting, target: int, prompt: seq<Message>, ms: seq<Message>, out: seq<Message>, cp: Checkpoint)
    requires Lawful(st.codec) && CompactionRuns.CompactsTo(st, target, ms, out, cp) && Keeps(st, prompt, ms)
    ensures Keeps(st, prompt, out)
  {
    if Estimate(ms) > target { CompactionRuns.CompactedReadsBack(st, target, ms, out, cp); }
  }

  /** The bindings that a request was compacted under are the manifest's. */
  lemma CompactedTo(d: Declared, allowed: Bindings, call: ModelCall, conversation: seq<Message>, overhead: nat,
                    messages: seq<Message>) returns (cp: Checkpoint)
    requires CompactionRuns.BindsManifest(allowed, d.items)
    requires exists bound, cp :: SentAs(d, call, conversation, overhead, messages, bound, cp)
    ensures SentAs(d, call, conversation, overhead, messages, allowed, cp)
  {
    var bound;
    bound, cp :| SentAs(d, call, conversation, overhead, messages, bound, cp);
    SentAsBound(d, call, conversation, overhead, messages, bound, cp);
    SameBindings(bound, allowed, d.items);
  }

  lemma SentAsBound(d: Declared, call: ModelCall, conversation: seq<Message>, overhead: nat, messages: seq<Message>,
                    bound: Bindings, cp: Checkpoint)
    requires SentAs(d, call, conversation, overhead, messages, bound, cp)
    ensures CompactionRuns.BindsManifest(bound, d.items)
  {
  }

  lemma SentKeeps(d: Declared, allowed: Bindings, prompt: seq<Message>, call: ModelCall, conversation: seq<Message>,
                  overhead: nat, messages: seq<Message>)
    requires Lawful(d.codec) && CompactionRuns.BindsManifest(allowed, d.items)
    requires SentFor(d, call, conversation, overhead, messages)
    requires Keeps(Setting(d.codec, d.sha, Some(allowed)), prompt, conversation)
    ensures Keeps(Setting(d.codec, d.sha, Some(allowed)), prompt, messages)
  {
    if MustCompact(call, conversation, overhead) {
      var cp := CompactedTo(d, allowed, call, conversation, overhead, messages);
      CompactionKeeps(Setting(d.codec, d.sha, Some(allowed)), Target(call, overhead), prompt, conversation, messages, cp);
    }
  }

  /** What a request adds to what was sent before it is never a system message. */
  lemma AnswerKeeps(st: Setting, prompt: seq<Message>, was: Turn, now: Turn, invoked: seq<string>, results: seq<Option<string>>)
    requires was.outcome.Answered? && Keeps(st, prompt, was.request.messages)
    requires Repeats(was, now) || OpensAfter(was, now, invoked, results) || now.conversation == Said(was, was.outcome.response)
    ensures Keeps(st, prompt, now.conversation)
  {
    var a := was.outcome.response;
    var said := Said(was, a);
    SpokenByUser(a.interventions);
    KeepsOn(st, prompt, was.request.messages, Spoken(a.interventions));
    if Repeats(was, now) {
      KeepsOn(st, prompt, said, [Message("assistant", a.content, [], "")]);
    } else if OpensAfter(was, now, invoked, results) {
      var m: nat :| ResultsAt(said, a.calls, now.conversation, invoked, results, m);
      ResultsAdded(said, a.calls, now.conversation, invoked, results, m);
      KeepsOn(st, prompt, said, now.conversation[|said|..]);
    }
  }

  lemma ResultsAdded(said: seq<Message>, calls: seq<ToolCall>, now: seq<Message>, invoked: seq<string>,
                     results: seq<Option<string>>, m: nat)
    requires ResultsAt(said, calls, now, invoked, results, m)
    ensures said + now[|said|..] == now && forall x <- now[|said|..] :: x.role != "system"
  {
    forall i | |said| < i < |now| ensures now[i].role != "system" {
      var k := i - |said| - 1;
      assert invoked[m + k] == calls[k].id && now[|said| + 1 + k].role == "tool";
    }
  }

  lemma SentOf(d: Declared, sent: seq<Turn>, i: nat)
    requires SentWell(d, sent) && i < |sent|
    ensures var t := sent[i]; SentFor(d, t.request.call, t.conversation, t.request.overhead, t.request.messages)
  {
    assert TurnWell(d, sent[i]);
  }

  /** However often it was compacted, every request of a conversation begins with the
      prompt's system messages and holds its declared context word for word, in order. */
  lemma {:induction false} ContextInEveryRequest(d: Declared, allowed: Bindings, call: ModelCall, prompt: seq<Message>,
                                                 sent: seq<Turn>, i: nat, invoked: seq<string>, results: seq<Option<string>>)
    requires Lawful(d.codec) && CompactionRuns.BindsManifest(allowed, d.items)
    requires SentWell(d, sent) && Transcript(call, prompt, sent, invoked, results) && i < |sent|
    ensures Keeps(Setting(d.codec, d.sha, Some(allowed)), prompt, sent[i].conversation)
    ensures Keeps(Setting(d.codec, d.sha, Some(allowed)), prompt, sent[i].request.messages)
  {
    var st := Setting(d.codec, d.sha, Some(allowed));
    if i == 0 {
      FirstIsPrompt(call, prompt, sent, invoked, results);
    } else {
      HowItFollows(call, prompt, sent, i, invoked, results);
      if sent[i - 1].outcome.Answered? {
        ContextInEveryRequest(d, allowed, call, prompt, sent, i - 1, invoked, results);
        AnswerKeeps(st, prompt, sent[i - 1], sent[i], invoked, results);
      } else {
        var j: nat :| j < i && OpenedFor(sent[j], sent[i - 1].round, sent[i].conversation);
        ContextInEveryRequest(d, allowed, call, prompt, sent, j, invoked, results);
      }
    }
    var r := sent[i].request;
    SentOf(d, sent, i);
    SentKeeps(d, allowed, prompt, r.call, sent[i].conversation, r.overhead, r.messages);
  }
}
