/** What a checkpoint's summary and inputs say, told message by message: what each
    message must leave in them, and where that stands. */
module Summaries {
  import opened Texts
  import opened Wrappers
  import opened Compaction

  /** The message is a checkpoint that was made from the same context. */
  ghost predicate Earlier(st: Setting, m: Message, cp: Checkpoint) {
    m.role == "user" && st.codec.decode(m.content) == Some(cp) &&
    cp.section == "COMPACTION_CHECKPOINT" && cp.version == 1 && cp.source == st.source != ""
  }

  datatype Part = InSummary | AmongInputs

  /** What a message must leave in a summary, one text for each rank: the words and then
      the calls of the assistant, the result of a tool, the summary of an earlier
      checkpoint. Among the inputs it must leave the user's own words, or the inputs of an
      earlier checkpoint. */
  ghost predicate Leaves(part: Part, st: Setting, m: Message, rank: nat, text: string) {
    match part
    case InSummary =>
      (m.role == "assistant" && rank == 0 && !Blank(m.content) && text == "assistant: " + m.content) ||
      (m.role == "assistant" && 0 < rank <= |m.calls| &&
       var c := m.calls[rank - 1]; text == "assistant tool " + c.name + " (" + c.id + "): " + c.arguments) ||
      (m.role == "tool" && rank == 0 && !Blank(m.content) && text == "tool " + m.callId + ": " + m.content) ||
      (rank == 0 && text != "" && exists cp :: Earlier(st, m, cp) && cp.summary == text)
    case AmongInputs =>
      (m.role == "user" && rank == 0 && text == m.content && !IsKept(st, m) && ParseCheckpoint(st.codec, m.content).None?) ||
      (exists cp :: Earlier(st, m, cp) && rank < |cp.retained| && cp.retained[rank] == text)
  }

  type Place = (nat, nat)

  predicate Before(a: Place, b: Place) { a.0 < b.0 || (a.0 == b.0 && a.1 < b.1) }

  predicate Told(places: seq<Place>, texts: seq<string>, message: nat, rank: nat, text: string) {
    |places| == |texts| && exists i | 0 <= i < |places| :: places[i] == (message, rank) && texts[i] == text
  }

  /** The texts are exactly what the messages must leave, each at its place, in the order
      of the messages. */
  ghost predicate Lists(part: Part, st: Setting, body: seq<Message>, places: seq<Place>, texts: seq<string>) {
    |places| == |texts| &&
    (forall i | 0 <= i < |places| :: LeftAt(part, st, body, places[i], texts[i])) &&
    (forall i, k | 0 <= i < k < |places| :: Before(places[i], places[k])) &&
    forall j: nat, rank: nat, text | LeftAt(part, st, body, (j, rank), text) :: Told(places, texts, j, rank, text)
  }

  ghost predicate Listed(part: Part, st: Setting, body: seq<Message>, texts: seq<string>) {
    exists places :: Lists(part, st, body, places, texts)
  }

  ghost predicate LeftAt(part: Part, st: Setting, body: seq<Message>, place: Place, text: string) {
    place.0 < |body| && Leaves(part, st, body[place.0], place.1, text)
  }

  lemma LeftBefore(part: Part, st: Setting, front: seq<Message>, m: Message, place: Place, text: string)
    ensures place.0 < |front| ==> (LeftAt(part, st, front + [m], place, text) <==> LeftAt(part, st, front, place, text))
    ensures place.0 == |front| ==> (LeftAt(part, st, front + [m], place, text) <==> Leaves(part, st, m, place.1, text))
    ensures place.0 > |front| ==> !LeftAt(part, st, front + [m], place, text)
  {
  }

  // ------------------------------------------------------------------- one message

  function LeftBy(part: Part, st: Setting, m: Message): seq<string> {
    if part == InSummary then PartsOf(st, m) else InputsOf(st, m)
  }

  function RanksOf(part: Part, st: Setting, m: Message): seq<nat> {
    if part == InSummary && m.role == "assistant"
    then (if Blank(m.content) then [] else [0]) + seq(|m.calls|, q => q + 1)
    else seq(|LeftBy(part, st, m)|, q => q)
  }

  lemma {:induction false} CallPartsAre(calls: seq<ToolCall>)
    ensures |CallParts(calls)| == |calls|
    ensures forall q | 0 <= q < |calls| ::
              CallParts(calls)[q] == "assistant tool " + calls[q].name + " (" + calls[q].id + "): " + calls[q].arguments
  {
    if calls != [] { CallPartsAre(calls[..|calls| - 1]); }
  }

  lemma OneCheckpoint(st: Setting, m: Message, cp: Checkpoint)
    requires st.source != "" && m.role == "user"
    ensures Earlier(st, m, cp) <==> ParseCheckpoint(st.codec, m.content) == Some(cp) && cp.source == st.source
  {
  }

  lemma MessageLeaves(part: Part, st: Setting, m: Message, i: nat)
    requires st.source != "" && i < |LeftBy(part, st, m)|
    ensures |RanksOf(part, st, m)| == |LeftBy(part, st, m)|
    ensures Leaves(part, st, m, RanksOf(part, st, m)[i], LeftBy(part, st, m)[i])
  {
    CallPartsAre(m.calls);
    if m.role == "user" && ParseCheckpoint(st.codec, m.content).Some? {
      OneCheckpoint(st, m, ParseCheckpoint(st.codec, m.content).value);
    }
  }

  lemma MessageTold(part: Part, st: Setting, m: Message, rank: nat, text: string) returns (i: nat)
    requires st.source != "" && Leaves(part, st, m, rank, text)
    ensures i < |LeftBy(part, st, m)| == |RanksOf(part, st, m)|
    ensures RanksOf(part, st, m)[i] == rank && LeftBy(part, st, m)[i] == text
  {
    CallPartsAre(m.calls);
    i := if part == InSummary && m.role == "assistant" && Blank(m.content) then rank - 1 else rank;
    if m.role == "user" && ParseCheckpoint(st.codec, m.content).Some? {
      OneCheckpoint(st, m, ParseCheckpoint(st.codec, m.content).value);
    }
  }

  // ---------------------------------------------------------------- all the messages

  function AllLeft(part: Part, st: Setting, body: seq<Message>): seq<string> {
    if part == InSummary then Parts(st, body) else Inputs(st, body)
  }

  function PlacesOf(part: Part, st: Setting, body: seq<Message>): seq<Place> {
    if body == [] then []
    else
      PlacesOf(part, st, body[..|body| - 1]) + At(|body| - 1, RanksOf(part, st, body[|body| - 1]))
  }

  lemma RanksGrow(part: Part, st: Setting, m: Message)
    requires st.source != ""
    ensures |RanksOf(part, st, m)| == |LeftBy(part, st, m)|
    ensures forall i, k | 0 <= i < k < |RanksOf(part, st, m)| :: RanksOf(part, st, m)[i] < RanksOf(part, st, m)[k]
  {
    CallPartsAre(m.calls);
  }

  /** Everything that the messages must leave is among what they leave, and nothing else. */
  lemma {:induction false} AllListed(part: Part, st: Setting, body: seq<Message>)
    requires st.source != ""
    ensures Lists(part, st, body, PlacesOf(part, st, body), AllLeft(part, st, body))
    ensures Listed(part, st, body, AllLeft(part, st, body))
  {
    if body != [] {
      var front, m := body[..|body| - 1], body[|body| - 1];
      AllListed(part, st, front);
      ListsOn(part, st, front, m, PlacesOf(part, st, front), AllLeft(part, st, front));
      assert front + [m] == body;
    }
    assert Lists(part, st, body, PlacesOf(part, st, body), AllLeft(part, st, body));
  }

  function At(message: nat, ranks: seq<nat>): (r: seq<Place>)
    ensures |r| == |ranks| && forall i | 0 <= i < |r| :: r[i] == (message, ranks[i])
  {
    seq(|ranks|, q requires 0 <= q < |ranks| => (message, ranks[q]))
  }

  lemma ListsOn(part: Part, st: Setting, front: seq<Message>, m: Message, places: seq<Place>, texts: seq<string>)
    requires st.source != "" && Lists(part, st, front, places, texts)
    ensures Lists(part, st, front + [m], places + At(|front|, RanksOf(part, st, m)), texts + LeftBy(part, st, m))
  {
    var body, places', texts' := front + [m], places + At(|front|, RanksOf(part, st, m)), texts + LeftBy(part, st, m);
    RanksGrow(part, st, m);
    forall i | 0 <= i < |places'| ensures LeftAt(part, st, body, places'[i], texts'[i]) {
      LeftBefore(part, st, front, m, places'[i], texts'[i]);
      if i >= |places| { MessageLeaves(part, st, m, i - |places|); }
    }
    forall j: nat, rank: nat, text | LeftAt(part, st, body, (j, rank), text) ensures Told(places', texts', j, rank, text) {
      LeftBefore(part, st, front, m, (j, rank), text);
      if j < |front| {
        ToldStill(places, texts, At(|front|, RanksOf(part, st, m)), LeftBy(part, st, m), j, rank, text);
      } else {
        ToldNow(part, st, m, places, texts, |front|, rank, text);
      }
    }
  }

  lemma ToldStill(places: seq<Place>, texts: seq<string>, more: seq<Place>, others: seq<string>, message: nat, rank: nat, text: string)
    requires Told(places, texts, message, rank, text) && |more| == |others|
    ensures Told(places + more, texts + others, message, rank, text)
  {
    var i :| 0 <= i < |places| && places[i] == (message, rank) && texts[i] == text;
    assert (places + more)[i] == (message, rank) && (texts + others)[i] == text;
  }

  lemma ToldNow(part: Part, st: Setting, m: Message, places: seq<Place>, texts: seq<string>, message: nat, rank: nat, text: string)
    requires st.source != "" && Leaves(part, st, m, rank, text) && |places| == |texts|
    ensures Told(places + At(message, RanksOf(part, st, m)), texts + LeftBy(part, st, m), message, rank, text)
  {
    var i := MessageTold(part, st, m, rank, text);
    assert (places + At(message, RanksOf(part, st, m)))[|places| + i] == (message, rank);
    assert (texts + LeftBy(part, st, m))[|places| + i] == text;
  }

  // ------------------------------------------------------------- where the texts stand

  predicate StandsAt(whole: string, start: nat, text: string) {
    start + |text| <= |whole| && whole[start..start + |text|] == text
  }

  lemma StandsStill(whole: string, start: nat, text: string, more: string)
    requires StandsAt(whole, start, text)
    ensures StandsAt(whole + more, start, text)
  {
    assert (whole + more)[start..start + |text|] == whole[start..start + |text|];
  }

  lemma StandsLast(whole: string, text: string)
    ensures StandsAt(whole + text, |whole|, text)
  {
  }

  /** The texts stand in the whole one after the other: each on its own, with nothing but
      a line break between them, nothing before the first and nothing after the last. */
  ghost predicate Stand(whole: string, texts: seq<string>, starts: seq<nat>) {
    |starts| == |texts| > 0 && starts[0] == 0 && starts[|texts| - 1] + |texts[|texts| - 1]| == |whole| &&
    (forall i | 0 <= i < |texts| :: StandsAt(whole, starts[i], texts[i])) &&
    forall i | 0 < i < |texts| :: starts[i] == starts[i - 1] + |texts[i - 1]| + 1 && whole[starts[i] - 1] == '\n'
  }

  lemma StandOn(whole: string, texts: seq<string>, starts: seq<nat>, text: string)
    requires Stand(whole, texts, starts)
    ensures Stand(whole + "\n" + text, texts + [text], starts + [|whole| + 1])
  {
    var whole', texts', starts' := whole + "\n" + text, texts + [text], starts + [|whole| + 1];
    Regroup(whole, "\n", text);
    forall i | 0 <= i < |texts'| ensures StandsAt(whole', starts'[i], texts'[i]) {
      if i < |texts| {
        StandsStill(whole, starts[i], texts[i], "\n" + text);
      } else {
        StandsLast(whole + "\n", text);
      }
    }
  }

  lemma {:induction false} JoinedStand(parts: seq<string>) returns (starts: seq<nat>)
    requires parts != []
    ensures Stand(Joined(parts), parts, starts)
  {
    if |parts| == 1 {
      starts := [0];
    } else {
      starts := JoinedStand(parts[..|parts| - 1]);
      StandOn(Joined(parts[..|parts| - 1]), parts[..|parts| - 1], starts, parts[|parts| - 1]);
      assert parts[..|parts| - 1] + [parts[|parts| - 1]] == parts;
      starts := starts + [|Joined(parts[..|parts| - 1])| + 1];
    }
  }

  /** The summary is made of these texts and of nothing else; only where no message leaves
      any does it hold the words that stand in for them. */
  ghost predicate SaidBy(st: Setting, body: seq<Message>, summary: string, places: seq<Place>, texts: seq<string>, starts: seq<nat>) {
    Lists(InSummary, st, body, places, texts) &&
    if texts == []
    then summary == "The authoritative source context remains available through the checkpoint references."
    else Stand(summary, texts, starts)
  }

  ghost predicate SaysAll(st: Setting, body: seq<Message>, summary: string) {
    exists places, texts, starts :: SaidBy(st, body, summary, places, texts, starts)
  }

  /** A summary before it is cut says everything that the messages must leave, in their
      order, and nothing else. */
  lemma SummarySaysAll(st: Setting, body: seq<Message>)
    requires st.source != ""
    ensures SaysAll(st, body, SummaryOf(Parts(st, body)))
  {
    var parts, places := Parts(st, body), PlacesOf(InSummary, st, body);
    AllListed(InSummary, st, body);
    if parts == [] {
      assert SaidBy(st, body, SummaryOf(parts), places, parts, []);
    } else {
      var starts := JoinedStand(parts);
      assert LeftAt(InSummary, st, body, places[0], parts[0]);
      assert |Joined(parts)| >= |parts[0]| > 0;
      assert SaidBy(st, body, SummaryOf(parts), places, parts, starts);
    }
  }
}
