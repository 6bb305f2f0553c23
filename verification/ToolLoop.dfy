/** The bounded native tool conversation: one model call and one batch of tool calls
    a round, with operator interventions and compaction in between. */
module ToolLoop {
  import opened Wrappers
  import opened Compaction
  import CompactionRuns
  import opened Texts
  import opened Transcripts

  class Conversation {
    const declared: Declared
    const overhead: bool -> bool -> nat
    const tools: set<string>
    const callOk: ModelCall -> bool
    const toolCallOk: ToolCall -> bool
    const resultOk: string -> bool
    const isJson: string -> bool
    const accepted: string -> bool
    const manifestOf: string -> Option<string>

    /** What the provider and the tools will do, for as long as they are asked. */
    var outcomes: seq<Outcome>
    var results: seq<Option<string>>

    ghost var sent: seq<Turn>
    ghost var asked: seq<string>
    ghost var invoked: seq<string>
    ghost var rounds: nat

    ghost predicate Good()
      reads this
    {
      SentWell(declared, sent) && NoRepeats(invoked)
    }

    constructor (declared: Declared, overhead: bool -> bool -> nat, tools: set<string>,
                 callOk: ModelCall -> bool, toolCallOk: ToolCall -> bool, resultOk: string -> bool, isJson: string -> bool,
                 accepted: string -> bool, manifestOf: string -> Option<string>,
                 outcomes: seq<Outcome>, results: seq<Option<string>>)
      ensures Good() && sent == [] && asked == [] && invoked == [] && rounds == 0
      ensures this.declared == declared && this.outcomes == outcomes && this.results == results && this.accepted == accepted
    {
      this.declared, this.overhead, this.tools := declared, overhead, tools;
      this.callOk, this.toolCallOk, this.resultOk, this.isJson := callOk, toolCallOk, resultOk, isJson;
      this.accepted, this.manifestOf, this.outcomes, this.results := accepted, manifestOf, outcomes, results;
      sent, asked, invoked, rounds := [], [], [], 0;
    }

    /** The last call to be invoked is a submission among these, and its result holds the
        manifest that the conversation gives. */
    ghost predicate Submitted(calls: seq<ToolCall>, given: seq<Option<string>>, value: string)
      reads this
    {
      0 < |invoked| <= |given| && var last := |invoked| - 1;
      given[last].Some? && manifestOf(given[last].value) == Some(value) &&
      exists k | 0 <= k < |calls| :: calls[k].name == SUBMISSION_TOOL && calls[k].id == invoked[last]
    }

    /** Compacts a conversation that has reached the threshold. */
    method Fit(call: ModelCall, conversation: seq<Message>, extra: nat) returns (r: Result<seq<Message>, LoopError>)
      requires Lawful(declared.codec) && Paired(conversation)
      ensures r.Ok? ==> Paired(r.value) && Fits(call, r.value, extra) &&
                        SentFor(declared, call, conversation, extra, r.value)
      ensures r.Err? ==> r.error != ToolRoundsExhausted && r.error != OutputSchema
    {
      var threshold := ClampCompactionThreshold(call.window, call.threshold);
      if !(threshold > call.maxOutput && Estimate(conversation) + extra + call.maxOutput >= threshold) {
        BelowThresholdFits(call, conversation, extra);
        return Ok(conversation);
      }
      var target := Target(call, extra);
      if target <= 0 {
        return Err(ContextExceeded);
      }
      var compacted;
      ghost var st;
      compacted, st := CompactionRuns.CompactWithManifest(declared.codec, declared.items, declared.sha, conversation, target);
      if compacted.Err? {
        return Err(if compacted.error == InvalidDeclaration then InvalidRequest else ContextExceeded);
      }
      var messages := compacted.value.0;
      CompactedAs(declared, call, conversation, extra, st, messages, compacted.value.1);
      r := Ok(messages);
    }

    /** One model call: compact when the threshold is reached, send, and give back the
        answer with the messages that were sent. */
    method Generate(call: ModelCall, conversation: seq<Message>, enforceSchema: bool, allowTools: bool,
                    ghost cause: Cause, ghost round: nat)
      returns (r: Result<(Response, seq<Message>), LoopError>)
      requires Lawful(declared.codec) && Good() && Paired(conversation)
      modifies this`outcomes, this`sent
      ensures Good() && |outcomes| <= |old(outcomes)|
      ensures sent == old(sent) || (|sent| == |old(sent)| + 1 && old(sent) <= sent)
      ensures r.Ok? ==> Paired(r.value.1)
      ensures sent == old(sent) ==> r.Err? && r.error != OutputSchema && r.error != ToolRoundsExhausted
      ensures sent != old(sent) ==>
                var t := sent[|old(sent)|];
                MadeFor(t, conversation, call, enforceSchema, allowTools, cause, round) &&
                t.request.overhead == overhead(allowTools)(enforceSchema) &&
                old(outcomes) == [t.outcome] + outcomes &&
                match t.outcome
                case Answered(a) => r == Ok((a, t.request.messages))
                case Failed(schema) => r == Err(if schema then OutputSchema else Unavailable)
    {
      if !callOk(call) {
        return Err(InvalidRequest);
      }
      var extra := overhead(allowTools)(enforceSchema);
      var fitted := Fit(call, conversation, extra);
      if fitted.Err? {
        return Err(fitted.error);
      }
      var messages := fitted.value;
      if outcomes == [] {
        return Err(Unavailable);
      }
      var outcome := outcomes[0];
      outcomes := outcomes[1..];
      var request := Request(call, messages, extra, allowTools, enforceSchema);
      sent := sent + [Turn(conversation, request, outcome, cause, round)];
      match outcome
      case Failed(schema) => r := Err(if schema then OutputSchema else Unavailable);
      case Answered(response) => r := Ok((response, messages));
    }

    /** One model call of several, and what operators said while it ran. */
    method Exchange(call: ModelCall, conversation: seq<Message>, enforceSchema: bool, allowTools: bool,
                    ghost start: seq<Turn>, ghost messages: seq<Message>, ghost first: ModelCall, ghost cause: Cause,
                    ghost round: nat, ghost why: Cause)
      returns (r: Result<(Response, seq<Message>), LoopError>)
      requires Lawful(declared.codec) && Good() && Paired(conversation)
      requires Going(start, sent, messages, first, enforceSchema, allowTools, cause, round, conversation, call, why)
      modifies this`outcomes, this`sent
      ensures Good() && Chain(start, sent) && old(sent) <= sent
      ensures |sent| > |start| ==> MadeFor(sent[|start|], messages, first, enforceSchema, allowTools, cause, round)
      ensures Came(start, sent, enforceSchema, allowTools, round, r)
      ensures r.Ok? ==> Paired(r.value.1) && sent[|sent| - 1].request.call == call && |outcomes| < |old(outcomes)|
    {
      ghost var before := sent;
      r := Generate(call, conversation, enforceSchema, allowTools, why, round);
      if |sent| > |before| {
        RequestMade(start, before, sent, messages, first, enforceSchema, allowTools, cause, round, conversation, call, why);
      }
      if r.Ok? {
        var extended := AddInterventions(r.value.1, r.value.0.interventions);
        r := Ok((r.value.0, extended));
      }
    }

    /** Repeats the model call while an operator intervenes in its answer. */
    method GenerateWithInterventions(first: ModelCall, messages: seq<Message>, enforceSchema: bool, allowTools: bool,
                                     ghost cause: Cause, ghost round: nat)
      returns (r: Result<(Response, seq<Message>), LoopError>)
      requires Lawful(declared.codec) && Good() && Paired(messages)
      modifies this`outcomes, this`sent, this`asked
      ensures Good() && asked == old(asked) + [first.requestId]
      ensures Chain(old(sent), sent)
      ensures |sent| > |old(sent)| ==> MadeFor(sent[|old(sent)|], messages, first, enforceSchema, allowTools, cause, round)
      ensures Came(old(sent), sent, enforceSchema, allowTools, round, r)
      ensures r.Ok? ==> !Intervened(r.value.0) && Paired(r.value.1)
    {
      asked := asked + [first.requestId];
      var conversation, call := messages, first;
      ghost var start, why := sent, cause;
      while true
        invariant Good() && Paired(conversation) && start == old(sent) && asked == old(asked) + [first.requestId]
        invariant Going(start, sent, messages, first, enforceSchema, allowTools, cause, round, conversation, call, why)
        decreases |outcomes|
      {
        r := Exchange(call, conversation, enforceSchema, allowTools, start, messages, first, cause, round, why);
        if r.Err? {
          return;
        }
        var response := r.value.0;
        conversation := r.value.1;
        if response.interventionId == "" || response.content == "" {
          return;
        }
        PairedPlus(conversation, Message("assistant", response.content, [], ""));
        conversation := conversation + [Message("assistant", response.content, [], "")];
        call := call.(requestId := response.interventionId);
        why := Again;
        RequestRepeats(start, sent, messages, first, enforceSchema, allowTools, cause, round, conversation, call);
      }
    }

    method AddInterventions(start: seq<Message>, texts: seq<string>) returns (conversation: seq<Message>)
      requires Paired(start)
      ensures Paired(conversation) && conversation == start + Spoken(texts)
    {
      conversation := start;
      for i := 0 to |texts|
        invariant Paired(conversation) && conversation == start + Spoken(texts[..i])
      {
        assert texts[..i + 1][..i] == texts[..i];
        if texts[i] != "" {
          PairedPlus(conversation, Message("user", texts[i], [], ""));
          Regroup(start, Spoken(texts[..i]), [Message("user", texts[i], [], "")]);
          conversation := conversation + [Message("user", texts[i], [], "")];
        }
      }
      assert texts[..|texts|] == texts;
    }

    /** Rejects unknown tools and ids seen before; the ids of accepted calls become seen. */
    method ValidateNativeToolCalls(response: Response, seen: set<string>) returns (r: Result<set<string>, LoopError>)
      ensures r.Ok? ==> NoRepeats(Ids(response.calls)) && r.value == seen + Elements(Ids(response.calls))
      ensures r.Ok? ==> forall i | 0 <= i < |response.calls| :: response.calls[i].id !in seen && response.calls[i].name in tools
      ensures r.Ok? <==> response.content == "" && |response.calls| <= MAXIMUM_TOOL_CALLS && NoRepeats(Ids(response.calls)) &&
                         forall i | 0 <= i < |response.calls| :: toolCallOk(response.calls[i]) && response.calls[i].id !in seen &&
                                                                  response.calls[i].name in tools
      ensures r.Err? ==> r.error != ToolRoundsExhausted
    {
      if response.content != "" || |response.calls| > MAXIMUM_TOOL_CALLS {
        return Err(OutputSchema);
      }
      var now := seen;
      var calls := response.calls;
      for i := 0 to |calls|
        invariant NoRepeats(Ids(calls[..i])) && now == seen + Elements(Ids(calls[..i]))
        invariant forall j | 0 <= j < i :: toolCallOk(calls[j]) && calls[j].id !in seen && calls[j].name in tools
      {
        IdsGrow(calls, i);
        if !toolCallOk(calls[i]) {
          return Err(OutputSchema);
        }
        if calls[i].name !in tools {
          return Err(UnknownTool);
        }
        if calls[i].id in now {
          return Err(OutputSchema);
        }
        now := now + {calls[i].id};
      }
      assert calls[..|calls|] == calls;
      r := Ok(now);
    }

    /** Runs one tool; its id is spent whether or not the tool answers. */
    method InvokeTool(call: ToolCall) returns (r: Result<string, LoopError>)
      requires call.id !in invoked && NoRepeats(invoked)
      modifies this`results, this`invoked
      ensures invoked == old(invoked) + [call.id] && NoRepeats(invoked)
      ensures r.Ok? ==> resultOk(r.value) && old(results) != [] && old(results)[0] == Some(r.value) && results == old(results)[1..]
      ensures r.Err? ==> r.error != ToolRoundsExhausted
    {
      invoked := invoked + [call.id];
      if results == [] || results[0].None? {
        return Err(ToolFailed);
      }
      var output := results[0].value;
      results := results[1..];
      r := if resultOk(output) then Ok(output) else Err(ToolResultInvalid);
    }

    /** Runs the calls of one answer in order. A submission ends the conversation with its manifest. */
    method RunCalls(calls: seq<ToolCall>) returns (r: Result<Option<string>, LoopError>, answers: seq<Message>)
      requires NoRepeats(invoked) && NoRepeats(Ids(calls)) && forall i | 0 <= i < |calls| :: calls[i].id !in invoked
      modifies this`results, this`invoked
      ensures NoRepeats(invoked) && old(invoked) <= invoked <= old(invoked) + Ids(calls)
      ensures r.Ok? && r.value.None? ==> Answers(answers, calls) && invoked == old(invoked) + Ids(calls)
      ensures r.Ok? && r.value.None? ==>
                |calls| <= |old(results)| && results == old(results)[|calls|..] &&
                forall i | 0 <= i < |calls| ::
                  old(results)[i] == Some(answers[i].content) && resultOk(answers[i].content) && calls[i].name != SUBMISSION_TOOL
      ensures r.Ok? && r.value.Some? ==>
                accepted(r.value.value) &&
                var k := |invoked| - |old(invoked)| - 1;
                0 <= k < |calls| && k < |old(results)| && calls[k].name == SUBMISSION_TOOL && old(results)[k].Some? &&
                manifestOf(old(results)[k].value) == r.value &&
                forall i | 0 <= i < k :: calls[i].name != SUBMISSION_TOOL
      ensures r.Err? ==> r.error != ToolRoundsExhausted
    {
      answers := [];
      ghost var start := invoked;
      for i := 0 to |calls|
        invariant invoked == start + Ids(calls[..i]) && NoRepeats(invoked)
        invariant Answers(answers, calls[..i])
        invariant i <= |old(results)| && results == old(results)[i..]
        invariant forall j | 0 <= j < i ::
          old(results)[j] == Some(answers[j].content) && resultOk(answers[j].content) && calls[j].name != SUBMISSION_TOOL
      {
        var call := calls[i];
        IdsGrow(calls, i);
        InvokedStays(start, calls, i);
        var result := InvokeTool(call);
        if result.Err? {
          return Err(result.error), answers;
        }
        if call.name == SUBMISSION_TOOL {
          var manifest := manifestOf(result.value);
          if manifest.None? {
            return Err(ToolResultInvalid), answers;
          }
          if !accepted(manifest.value) {
            return Err(OutputInvalid), answers;
          }
          return Ok(manifest), answers;
        }
        answers := answers + [Message("tool", result.value, [], call.id)];
      }
      assert calls[..|calls|] == calls;
      r := Ok(None);
    }

    /** The last call of a conversation: no tools, and the answer must be accepted. */
    method Finalize(call: ModelCall, messages: seq<Message>, ghost round: nat) returns (r: Result<string, LoopError>)
      requires Lawful(declared.codec) && Good() && Paired(messages)
      modifies this`outcomes, this`sent, this`asked
      ensures Good() && asked == old(asked) + [call.requestId]
      ensures Chain(old(sent), sent)
      ensures |sent| > |old(sent)| ==> MadeFor(sent[|old(sent)|], messages, call, true, false, Last, round)
      ensures r.Ok? ==> accepted(r.value) && |sent| > 0 && AnsweredBy(sent[|sent| - 1], r.value)
      ensures r.Err? ==> r.error != ToolRoundsExhausted
    {
      var generated := GenerateWithInterventions(call, messages, true, false, Last, round);
      if generated.Err? {
        return Err(generated.error);
      }
      var response := generated.value.0;
      if response.calls != [] || response.content == "" {
        return Err(OutputSchema);
      }
      r := if accepted(response.content) then Ok(response.content) else Err(OutputInvalid);
    }

    /** An answer without calls: accepted as it is, or asked for once more without tools. */
    method Settle(content: string, finalCall: ModelCall, messages: seq<Message>, ghost round: nat)
      returns (r: Result<string, LoopError>)
      requires Lawful(declared.codec) && Good() && Paired(messages)
      modifies this`outcomes, this`sent, this`asked
      ensures Good() && (asked == old(asked) || asked == old(asked) + [finalCall.requestId])
      ensures Chain(old(sent), sent)
      ensures |sent| > |old(sent)| ==> MadeFor(sent[|old(sent)|], messages, finalCall, true, false, Last, round)
      ensures asked == old(asked) <==> content != "" && isJson(content) && accepted(content)
      ensures asked == old(asked) ==> r == Ok(content) && sent == old(sent)
      ensures r.Ok? && asked != old(asked) ==> accepted(r.value) && |sent| > 0 && AnsweredBy(sent[|sent| - 1], r.value)
      ensures r.Err? ==> r.error != ToolRoundsExhausted
    {
      if content == "" || !isJson(content) || !accepted(content) {
        r := Finalize(finalCall, messages, round);
        return;
      }
      r := Ok(content);
    }

    /** The first request of a round and its repetitions. */
    method PlayRound(call: ModelCall, messages: seq<Message>, round: nat, ghost prompt: seq<Message>,
                     ghost given: seq<Option<string>>)
      returns (r: Result<(Response, seq<Message>), LoopError>)
      requires Lawful(declared.codec) && Good() && Paired(messages)
      requires Transcript(call, prompt, sent, invoked, given) && Ready(prompt, sent, round, messages, invoked, given)
      modifies this`outcomes, this`sent, this`asked
      ensures Good() && asked == old(asked) + [RoundId(call.requestId, round)]
      ensures Transcript(call, prompt, sent, invoked, given)
      ensures r.Ok? ==> Paired(r.value.1)
      ensures r.Ok? || r.error == OutputSchema ==> Played(sent, round, messages, r)
      ensures r.Err? && r.error != OutputSchema ==> MayEnd(sent, Err(r.error))
      ensures old(NoneLast(sent)) ==> NoneLast(sent)
      ensures r.Err? ==> r.error != ToolRoundsExhausted
    {
      ghost var before := sent;
      r := GenerateWithInterventions(call.(requestId := RoundId(call.requestId, round)), messages, false, true, Opening, round);
      RoundOn(call, prompt, before, sent, round, messages, invoked, given);
      if NoneLast(before) { NoneLastOn(before, sent); }
      if |sent| > |before| { assert OpenedFor(sent[|before|], round, messages); }
    }

    /** The calls of an answer, and the conversation that goes on with what they gave. */
    method AnswerCalls(calls: seq<ToolCall>, messages: seq<Message>, ghost call: ModelCall, ghost prompt: seq<Message>,
                       ghost given: seq<Option<string>>)
      returns (r: Result<Option<string>, LoopError>, next: seq<Message>)
      requires calls != [] && Paired(messages) && NoRepeats(invoked) && NoRepeats(Ids(calls))
      requires forall i | 0 <= i < |calls| :: calls[i].id !in invoked
      requires |invoked| <= |given| && results == given[|invoked|..]
      requires Transcript(call, prompt, sent, invoked, given)
      modifies this`results, this`invoked
      ensures NoRepeats(invoked) && old(invoked) <= invoked <= old(invoked) + Ids(calls)
      ensures Transcript(call, prompt, sent, invoked, given)
      ensures r.Ok? && r.value.None? ==>
                invoked == old(invoked) + Ids(calls) && |invoked| <= |given| && results == given[|invoked|..] &&
                Paired(next) && HasResults(messages, calls, next, invoked, given)
      ensures r.Ok? && r.value.Some? ==> accepted(r.value.value) && Submitted(calls, given, r.value.value)
      ensures r.Err? ==> r.error != ToolRoundsExhausted
    {
      ghost var earlier := invoked;
      var answers;
      r, answers := RunCalls(calls);
      next := messages;
      TranscriptStays(call, prompt, sent, earlier, invoked[|earlier|..], given);
      assert earlier + invoked[|earlier|..] == invoked;
      if r.Ok? && r.value.None? {
        PairedRound(messages, calls, answers);
        RoundEnds(messages, calls, answers, earlier, given);
        next := messages + [Message("assistant", "", calls, "")] + answers;
      } else if r.Ok? {
        ghost var k := |invoked| - |earlier| - 1;
        assert invoked[|invoked| - 1] == Ids(calls)[k] == calls[k].id;
        assert old(results)[k] == given[|earlier| + k];
      }
    }

    /** A last request is made only after a broken answer or one that cannot be accepted. */
    ghost predicate LastNeeded()
      reads this
    {
      forall i | 0 < i < |sent| && sent[i].cause == Last && sent[i - 1].outcome.Answered? ::
        var c := sent[i - 1].outcome.response.content; c == "" || !isJson(c) || !accepted(c)
    }

    lemma OneLast(before: seq<Turn>)
      requires NoneLast(before) && Chain(before, sent)
      requires |sent| > |before| > 0 && before[|before| - 1].outcome.Answered? ==>
                 var c := before[|before| - 1].outcome.response.content; c == "" || !isJson(c) || !accepted(c)
      ensures LastNeeded()
    {
      forall i | 0 < i < |sent| && i != |before| ensures sent[i].cause != Last {
        if i < |before| { assert sent[i] == before[i]; } else { assert Repeats(sent[i - 1], sent[i]); }
      }
    }

    /** The value is the content of the last answer, or the manifest of the last call invoked. */
    ghost predicate Gives(given: seq<Option<string>>, value: string)
      reads this
    {
      accepted(value) && sent != [] && sent[|sent| - 1].outcome.Answered? &&
      var a := sent[|sent| - 1].outcome.response;
      (a.calls == [] && value == a.content) || Submitted(a.calls, given, value)
    }

    lemma NoneLastNeeded()
      requires NoneLast(sent)
      ensures LastNeeded()
    {
    }

    /** The end of a conversation whose round gave no calls: its answer is settled, or
        after a broken one the last request is made. */
    method EndRound(call: ModelCall, messages: seq<Message>, round: nat, generated: Result<(Response, seq<Message>), LoopError>,
                    ghost prompt: seq<Message>, ghost given: seq<Option<string>>) returns (r: Result<string, LoopError>)
      requires Lawful(declared.codec) && Good() && Paired(messages) && Transcript(call, prompt, sent, invoked, given)
      requires generated.Ok? ==> Paired(generated.value.1) && generated.value.0.calls == []
      requires generated.Ok? || generated.error == OutputSchema ==> Played(sent, round, messages, generated)
      requires generated.Err? ==> generated.error != ToolRoundsExhausted
      requires generated.Err? && generated.error != OutputSchema ==> MayEnd(sent, Err(generated.error))
      requires NoneLast(sent)
      modifies this`outcomes, this`sent, this`asked
      ensures Good() && Transcript(call, prompt, sent, invoked, given) && LastNeeded()
      ensures asked == old(asked) ==> MayEnd(sent, r)
      ensures asked == old(asked) || asked == old(asked) + [FinalId(call.requestId)]
      ensures r.Ok? ==> Gives(given, r.value)
      ensures r.Err? ==> r.error != ToolRoundsExhausted
    {
      var finalCall := call.(requestId := FinalId(call.requestId));
      ghost var played := sent;
      if generated.Ok? {
        r := Settle(generated.value.0.content, finalCall, generated.value.1, round);
        LastOn(call, prompt, played, sent, round, generated.value.1, generated, messages, invoked, given);
      } else if generated.error == OutputSchema {
        r := Finalize(finalCall, messages, round);
        LastOn(call, prompt, played, sent, round, messages, generated, messages, invoked, given);
      } else {
        r := Err(generated.error);
      }
      OneLast(played);
    }

    /** Before a round: the rounds so far have each been opened once, the ids of the calls
        invoked are those seen, and the conversation is ready for the next request. */
    ghost predicate Between(call: ModelCall, prompt: seq<Message>, messages: seq<Message>, seen: set<string>,
                            given: seq<Option<string>>)
      reads this
    {
      Good() && Paired(messages) && seen == Elements(invoked) && |invoked| <= rounds * MAXIMUM_TOOL_CALLS &&
      |invoked| <= |given| && results == given[|invoked|..] && asked == RoundIds(call.requestId, rounds) &&
      Transcript(call, prompt, sent, invoked, given) && Ready(prompt, sent, rounds, messages, invoked, given) && NoneLast(sent)
    }

    /** The rest of a round whose answer has calls: they are checked, counted and run. */
    method RunAnswer(call: ModelCall, maxToolRounds: nat, response: Response, messages: seq<Message>, seen: set<string>,
                     ghost prompt: seq<Message>, ghost given: seq<Option<string>>, round: nat)
      returns (r: Option<Result<string, LoopError>>, next: seq<Message>, nowSeen: set<string>)
      requires Good() && Transcript(call, prompt, sent, invoked, given) && Paired(messages) && round == rounds <= maxToolRounds
      requires seen == Elements(invoked) && |invoked| <= rounds * MAXIMUM_TOOL_CALLS
      requires |invoked| <= |given| && results == given[|invoked|..]
      requires Played(sent, round, messages, Ok((response, messages))) && response.calls != []
      modifies this`results, this`invoked, this`rounds
      ensures NoRepeats(invoked) && Transcript(call, prompt, sent, invoked, given) && round <= rounds <= maxToolRounds
      ensures |invoked| <= rounds * MAXIMUM_TOOL_CALLS
      ensures r.None? ==>
                rounds == round + 1 && nowSeen == Elements(invoked) && |invoked| <= |given| && results == given[|invoked|..] &&
                Paired(next) && Ready(prompt, sent, round + 1, next, invoked, given)
      ensures r.Some? ==> rounds <= round + 1 && MayEnd(sent, r.value)
      ensures r.Some? && r.value.Ok? ==> Gives(given, r.value.value)
      ensures r == Some(Err(ToolRoundsExhausted)) ==> rounds == maxToolRounds
    {
      next, nowSeen := messages, seen;
      var checked := ValidateNativeToolCalls(response, seen);
      if checked.Err? {
        return Some(Err(checked.error)), next, nowSeen;
      }
      nowSeen := checked.value;
      if round >= maxToolRounds {
        return Some(Err(ToolRoundsExhausted)), next, nowSeen;
      }
      rounds := rounds + 1;
      var ran;
      ran, next := AnswerCalls(response.calls, messages, call, prompt, given);
      if ran.Err? {
        return Some(Err(ran.error)), next, nowSeen;
      }
      if ran.value.Some? {
        return Some(Ok(ran.value.value)), next, nowSeen;
      }
      ReadyAfter(prompt, sent, round, response, messages, next, invoked, given);
      r := None;
    }

    /** One round: its request, and its calls if the answer has any. */
    method RunRound(call: ModelCall, maxToolRounds: nat, messages: seq<Message>, seen: set<string>,
                    ghost prompt: seq<Message>, ghost given: seq<Option<string>>, round: nat)
      returns (r: Option<Result<string, LoopError>>, next: seq<Message>, nowSeen: set<string>)
      requires Lawful(declared.codec) && Between(call, prompt, messages, seen, given) && round == rounds <= maxToolRounds
      modifies this
      ensures Good() && Transcript(call, prompt, sent, invoked, given) && rounds <= maxToolRounds
      ensures |invoked| <= rounds * MAXIMUM_TOOL_CALLS
      ensures r.None? ==> Between(call, prompt, next, nowSeen, given) && rounds == round + 1
      ensures r.Some? ==> round <= rounds <= round + 1
      ensures asked == RoundIds(call.requestId, round + 1) ||
              (r.Some? && asked == RoundIds(call.requestId, round + 1) + [FinalId(call.requestId)])
      ensures r.Some? && r.value.Ok? ==> Gives(given, r.value.value)
      ensures r.Some? ==> LastNeeded() && (asked == RoundIds(call.requestId, round + 1) ==> MayEnd(sent, r.value))
      ensures r == Some(Err(ToolRoundsExhausted)) ==> rounds == maxToolRounds
    {
      next, nowSeen := messages, seen;
      assert RoundIds(call.requestId, round + 1) == RoundIds(call.requestId, round) + [RoundId(call.requestId, round)];
      var generated := PlayRound(call, messages, round, prompt, given);
      if generated.Err? || generated.value.0.calls == [] {
        var ended := EndRound(call, messages, round, generated, prompt, given);
        return Some(ended), next, nowSeen;
      }
      NoneLastNeeded();
      r, next, nowSeen := RunAnswer(call, maxToolRounds, generated.value.0, generated.value.1, seen, prompt, given, round);
    }

    /** The whole conversation. Its requests are exactly a transcript: the first is made
        for the prompt, and each later one for what the requests before it and the tools
        left. What it gives is the last answer, or the manifest of the last call. */
    method RunToolLoop(call: ModelCall, maxToolRounds: int, prompt: seq<Message>) returns (r: Result<string, LoopError>)
      requires Lawful(declared.codec) && sent == [] && asked == [] && invoked == [] && rounds == 0
      requires forall m <- prompt :: Plain(m)
      modifies this
      ensures SentWell(declared, sent) && NoRepeats(invoked)
      ensures Transcript(call, prompt, sent, invoked, old(results))
      ensures r.Ok? ==> Gives(old(results), r.value)
      ensures LastNeeded() && forall n: nat | asked == RoundIds(call.requestId, n) :: MayEnd(sent, r)
      ensures rounds == 0 || rounds <= maxToolRounds <= MAXIMUM_NATIVE_TOOL_ROUNDS
      ensures |invoked| <= rounds * MAXIMUM_TOOL_CALLS
      ensures r == Err(ToolRoundsExhausted) ==> rounds == maxToolRounds
      ensures exists n: nat | rounds <= n <= rounds + 1 :: Asked(asked, call.requestId, n)
      ensures maxToolRounds < 0 || maxToolRounds > MAXIMUM_NATIVE_TOOL_ROUNDS || !callOk(call) ==>
                r == Err(InvalidRequest) && sent == [] && asked == []
    {
      assert RoundIds(call.requestId, 0) == [] && Asked(asked, call.requestId, 0);
      if maxToolRounds < 0 || maxToolRounds > MAXIMUM_NATIVE_TOOL_ROUNDS || !callOk(call) ||
         !callOk(call.(requestId := RoundId(call.requestId, maxToolRounds))) ||
         !callOk(call.(requestId := FinalId(call.requestId))) {
        return Err(InvalidRequest);
      }
      PlainIsPaired(prompt);
      var messages := prompt;
      var seen: set<string> := {};
      var round: nat := 0;
      while true
        invariant Between(call, prompt, messages, seen, old(results)) && round == rounds <= maxToolRounds
        decreases maxToolRounds - round
      {
        var ended;
        ended, messages, seen := RunRound(call, maxToolRounds, messages, seen, prompt, old(results), round);
        if ended.Some? {
          assert Asked(asked, call.requestId, round + 1);
          if asked != RoundIds(call.requestId, round + 1) {
            forall n: nat ensures asked != RoundIds(call.requestId, n) {
              FinalIsNoRound(asked, call.requestId, round + 1, n);
            }
          }
          return ended.value;
        }
        round := round + 1;
      }
    }
  }
}
