/** What a run of the agent shows: its calls, its transcript, its event stream and its batches. */
module AgentTrace {
  import opened Prelude

  datatype Effect = ReadEffect | ProposalEffect | WriteEffect | NoEffect

  /** `signature` is the tool's name with its arguments in canonical form. */
  datatype Call = Call(id: string, name: string, signature: string)

  datatype Message =
    | Said(content: string)  // what the caller passed in
    | Assistant(text: string, calls: seq<Call>)
    | Tool(callId: string, toolName: string, output: string)

  datatype Event =
    | RunStarted
    | IterationStarted(iteration: nat)
    | ModelRequested(asked: nat)
    | ProviderFailed(failedProvider: nat)
    | ModelResponded(answered: nat)
    | ToolStarted(started: Call)
    | ToolCompleted(completed: Call, result: string)
    | RunCompleted(iterations: nat, toolCalls: nat)
    | RunFailed(code: string)
    | RunCancelled

  datatype Moment = Moment(cancel: bool, deadline: bool, rejects: bool, response: Option<Message>, result: string)

  /** `denied` is the name filter on top of the dispatcher's own classification. */
  datatype Config = Config(
    providers: nat, hasTools: bool, maxIterations: nat, maxToolCalls: nat, maxRepeated: nat,
    classify: string -> Effect, denied: string -> bool)

  predicate Runnable(c: Config) {
    c.providers > 0 && c.maxIterations > 0 && c.maxToolCalls > 0 && c.maxRepeated > 0
  }

  /** `made` is how many calls had been dispatched by then. */
  datatype Request = Request(provider: nat, messages: seq<Message>, made: nat)

  predicate Terminal(e: Event) {
    e.RunCompleted? || e.RunFailed? || e.RunCancelled?
  }

  predicate Blank(s: string) {
    forall i | 0 <= i < |s| :: s[i] == ' ' || s[i] == '\t' || s[i] == '\n' || s[i] == '\r'
  }

  // ---------------------------------------------------------------- transcripts

  /** Tool messages that answer the first `n` of these calls, each once and in order. */
  predicate Answers(replies: seq<Message>, calls: seq<Call>) {
    && |replies| <= |calls|
    && forall i | 0 <= i < |replies| ::
      replies[i].Tool? && replies[i].callId == calls[i].id && replies[i].toolName == calls[i].name
  }

  /** Nothing but assistant messages, each followed at once by the answers to all its calls. */
  ghost predicate Closed(tail: seq<Message>)
    decreases |tail|
  {
    tail == [] ||
      exists n | 0 <= n < |tail| :: ClosedAt(tail, n) && Closed(tail[..n])
  }

  predicate ClosedAt(tail: seq<Message>, n: nat)
    requires n < |tail|
  {
    tail[n].Assistant? && tail[n].calls != [] && |tail| == n + 1 + |tail[n].calls|
      && Answers(tail[n + 1..], tail[n].calls)
  }

  // ---------------------------------------------------------------- validation of one batch

  function Count(repeated: map<string, nat>, signature: string): nat {
    if signature in repeated then repeated[signature] else 0
  }

  /** What is wrong with the call at `k`, looking at the calls before it only for repeated ids. */
  function Fault(c: Config, repeated: map<string, nat>, calls: seq<Call>, k: nat): Option<string>
    requires k < |calls|
  {
    var call := calls[k];
    if Blank(call.id) || Blank(call.name) || exists j | 0 <= j < k :: calls[j].id == call.id then Some("MODEL_ERROR")
    else if Count(repeated, call.signature) + 1 > c.maxRepeated then Some("LOOP_DETECTED")
    else if c.classify(call.name) !in {ReadEffect, ProposalEffect} || c.denied(call.name) then Some("UNSAFE_TOOL")
    else None
  }

  predicate BatchOk(c: Config, repeated: map<string, nat>, calls: seq<Call>) {
    forall k | 0 <= k < |calls| :: Fault(c, repeated, calls, k) == None
  }

  // ---------------------------------------------------------------- what a run keeps

  /** The calls the assistant messages of a transcript ask for, in order. */
  function CallsSaid(messages: seq<Message>): seq<Call> {
    if messages == [] then []
    else
      var last := messages[|messages| - 1];
      CallsSaid(messages[..|messages| - 1]) + if last.Assistant? then last.calls else []
  }

  /** What its tool messages report, in order. */
  function ResultsSaid(messages: seq<Message>): seq<string> {
    if messages == [] then []
    else
      var last := messages[|messages| - 1];
      ResultsSaid(messages[..|messages| - 1]) + if last.Tool? then [last.output] else []
  }

  /** The calls handed to the dispatcher, and what it returned for them. */
  datatype Work = Work(dispatched: seq<Call>, returned: seq<string>)

  ghost predicate RequestsOk(c: Config, input: seq<Message>, work: Work, requests: seq<Request>) {
    forall i {:trigger RequestOk(c, input, work, requests[i])} | 0 <= i < |requests| ::
      RequestOk(c, input, work, requests[i])
  }

  /** The model saw the caller's messages, then every call dispatched so far, each answered once and in order with what
      the dispatcher returned for it. */
  ghost predicate RequestOk(c: Config, input: seq<Message>, work: Work, r: Request) {
    var tail := if |input| <= |r.messages| then r.messages[|input|..] else [];
    && r.provider < c.providers && input <= r.messages && Closed(tail)
    && r.made <= |work.dispatched| && CallsSaid(tail) == work.dispatched[..r.made]
    && r.made <= |work.returned| && ResultsSaid(tail) == work.returned[..r.made]
  }

  /** Fallback goes forward only: providers of later requests are never earlier in the list. */
  predicate Forward(requests: seq<Request>) {
    forall i, j | 0 <= i < j < |requests| :: requests[i].provider <= requests[j].provider
  }

  predicate AskedUpTo(requests: seq<Request>, n: nat) {
    forall i | 0 <= i < |requests| :: requests[i].provider <= n
  }

  // ---------------------------------------------------------------- what the event stream shows

  /** A model request with the numbers of calls announced and completed before it. */
  datatype Ask = Ask(provider: nat, announced: nat, completed: nat)

  /** What a stream shows: the calls announced and completed, what the latter are reported to have returned, the model
      requests, the provider of the latest response, the providers that asked for completed proposals and those asked
      once there was one, and how many iterations were started and terminal events emitted. */
  datatype View = View(
    announced: seq<Call>, completed: seq<Call>, results: seq<string>, asks: seq<Ask>, answered: Option<nat>,
    proposers: set<Option<nat>>, late: set<nat>, iterations: nat, terminals: nat)

  predicate Proposal(c: Config, e: Event) {
    e.ToolCompleted? && c.classify(e.completed.name) == ProposalEffect
  }

  function Observe(c: Config, v: View, e: Event): View {
    match e
    case IterationStarted(_) => v.(iterations := v.iterations + 1)
    case ModelRequested(p) =>
      v.(asks := v.asks + [Ask(p, |v.announced|, |v.completed|)], late := if v.proposers == {} then v.late
        else v.late + {p})
    case ModelResponded(p) => v.(answered := Some(p))
    case ToolStarted(call) => v.(announced := v.announced + [call])
    case ToolCompleted(call, result) =>
      v.(completed := v.completed + [call], results := v.results + [result],
         proposers := if Proposal(c, e) then v.proposers + {v.answered} else v.proposers)
    case _ => if Terminal(e) then v.(terminals := v.terminals + 1) else v
  }

  function Read(c: Config, events: seq<Event>): View {
    if events == [] then View([], [], [], [], None, {}, {}, 0, 0)
    else Observe(c, Read(c, events[..|events| - 1]), events[|events| - 1])
  }

  lemma ReadNext(c: Config, events: seq<Event>, e: Event)
    ensures Read(c, events + [e]) == Observe(c, Read(c, events), e)
  {
    assert (events + [e])[..|events|] == events;
    assert (events + [e])[|events|] == e;
  }

  /** The requests are those of the stream, made at its moments, when no announced call was still open; what completed
      was dispatched and is reported with what was returned for it, and what was dispatched had been announced. */
  ghost predicate TraceOk(v: View, requests: seq<Request>, work: Work) {
    && v.completed <= work.dispatched <= v.announced
    && v.results <= work.returned
    && |v.asks| == |requests|
    && forall i | 0 <= i < |requests| :: v.asks[i] == Ask(requests[i].provider, requests[i].made, requests[i].made)
  }

  /** `provider` asked for every proposal that has completed, and got every model request after the first of them. */
  predicate PinnedTo(v: View, provider: nat) {
    v.proposers <= {Some(provider)} && v.late <= if v.proposers == {} then {} else {provider}
  }

  /** Once a proposal tool has completed, every model request goes to the provider whose response asked for it. */
  predicate Pinned(c: Config, events: seq<Event>) {
    forall i, k | 0 <= i < k < |events| ::
      Proposal(c, events[i]) && events[k].ModelRequested? ==> Read(c, events[..i]).answered == Some(events[k].asked)
  }

  lemma {:induction false} ProposersAreListed(c: Config, events: seq<Event>, i: nat)
    requires i < |events| && Proposal(c, events[i])
    ensures Read(c, events[..i]).answered in Read(c, events).proposers
    decreases |events|
  {
    var n := |events| - 1;
    if i < n {
      assert events[..n][i] == events[i] && events[..n][..i] == events[..i];
      ProposersAreListed(c, events[..n], i);
    }
  }

  lemma {:induction false} LateRequestsAreListed(c: Config, events: seq<Event>, i: nat, k: nat)
    requires i < k < |events| && Proposal(c, events[i]) && events[k].ModelRequested?
    ensures events[k].asked in Read(c, events).late
    decreases |events|
  {
    var n := |events| - 1;
    assert events[..n][i] == events[i];
    if k < n {
      assert events[..n][k] == events[k];
      LateRequestsAreListed(c, events[..n], i, k);
    } else {
      ProposersAreListed(c, events[..n], i);
    }
  }

  lemma PinnedToIsPinned(c: Config, events: seq<Event>, provider: nat)
    requires PinnedTo(Read(c, events), provider)
    ensures Pinned(c, events)
  {
    forall i, k | 0 <= i < k < |events| && Proposal(c, events[i]) && events[k].ModelRequested?
      ensures Read(c, events[..i]).answered == Some(events[k].asked)
    {
      ProposersAreListed(c, events, i);
      LateRequestsAreListed(c, events, i, k);
    }
  }

  // ---------------------------------------------------------------- repeated calls

  /** A batch, and the counts it was judged by. */
  datatype Batch = Batch(repeated: map<string, nat>, calls: seq<Call>)

  function Occurrences(calls: seq<Call>, signature: string): nat {
    if calls == [] then 0
    else Occurrences(calls[..|calls| - 1], signature) + if calls[|calls| - 1].signature == signature then 1 else 0
  }

  ghost predicate Counted(repeated: map<string, nat>, calls: seq<Call>) {
    forall signature :: Count(repeated, signature) == Occurrences(calls, signature)
  }

  /** Every batch was faultless by the counts of the calls in the batches before it. */
  ghost predicate BatchesOk(c: Config, batches: seq<Batch>) {
    forall i | 0 <= i < |batches| ::
      BatchOk(c, batches[i].repeated, batches[i].calls) && Counted(batches[i].repeated, CallsIn(batches[..i]))
  }

  function CallsIn(batches: seq<Batch>): seq<Call> {
    if batches == [] then [] else CallsIn(batches[..|batches| - 1]) + batches[|batches| - 1].calls
  }

  lemma {:induction false} CallsSaidConcat(a: seq<Message>, b: seq<Message>)
    ensures CallsSaid(a + b) == CallsSaid(a) + CallsSaid(b)
    decreases |b|
  {
    if b == [] {
      assert a + b == a;
    } else {
      var n := |b| - 1;
      assert (a + b)[..|a + b| - 1] == a + b[..n] && (a + b)[|a + b| - 1] == b[n];
      CallsSaidConcat(a, b[..n]);
    }
  }

  lemma {:induction false} ResultsSaidConcat(a: seq<Message>, b: seq<Message>)
    ensures ResultsSaid(a + b) == ResultsSaid(a) + ResultsSaid(b)
    decreases |b|
  {
    if b == [] {
      assert a + b == a;
    } else {
      var n := |b| - 1;
      assert (a + b)[..|a + b| - 1] == a + b[..n] && (a + b)[|a + b| - 1] == b[n];
      ResultsSaidConcat(a, b[..n]);
    }
  }

  lemma OneResultSaid(replies: seq<Message>, reply: Message)
    requires reply.Tool?
    ensures ResultsSaid(replies + [reply]) == ResultsSaid(replies) + [reply.output]
  {
    assert (replies + [reply])[..|replies|] == replies;
  }

  lemma {:induction false} AnswersSayNothing(replies: seq<Message>, calls: seq<Call>)
    requires Answers(replies, calls)
    ensures CallsSaid(replies) == []
    decreases |replies|
  {
    if replies != [] {
      var n := |replies| - 1;
      assert forall i :: 0 <= i < n ==> replies[..n][i] == replies[i];
      AnswersSayNothing(replies[..n], calls);
    }
  }

  lemma OneBatchSaid(said: Message)
    requires said.Assistant?
    ensures CallsSaid([said]) == said.calls && ResultsSaid([said]) == []
  {
    assert [said][..0] == [];
  }

  lemma CallsOfBatch(tail: seq<Message>, said: Message, replies: seq<Message>)
    requires said.Assistant? && Answers(replies, said.calls)
    ensures CallsSaid(tail + [said] + replies) == CallsSaid(tail) + said.calls
  {
    OneBatchSaid(said);
    AnswersSayNothing(replies, said.calls);
    CallsSaidConcat(tail + [said], replies);
    CallsSaidConcat(tail, [said]);
  }

  lemma ResultsOfBatch(tail: seq<Message>, said: Message, replies: seq<Message>)
    requires said.Assistant?
    ensures ResultsSaid(tail + [said] + replies) == ResultsSaid(tail) + ResultsSaid(replies)
  {
    OneBatchSaid(said);
    ResultsSaidConcat(tail + [said], replies);
    ResultsSaidConcat(tail, [said]);
  }

  lemma CountedNext(repeated: map<string, nat>, calls: seq<Call>, call: Call)
    requires Counted(repeated, calls)
    ensures Counted(repeated[call.signature := Count(repeated, call.signature) + 1], calls + [call])
  {
    var more := repeated[call.signature := Count(repeated, call.signature) + 1];
    assert (calls + [call])[..|calls|] == calls;
    forall signature
      ensures Count(more, signature) == Occurrences(calls + [call], signature)
    {
      assert Count(repeated, signature) == Occurrences(calls, signature);
    }
  }

  lemma BatchesNext(c: Config, batches: seq<Batch>, repeated: map<string, nat>, calls: seq<Call>)
    requires BatchesOk(c, batches) && BatchOk(c, repeated, calls) && Counted(repeated, CallsIn(batches))
    ensures BatchesOk(c, batches + [Batch(repeated, calls)])
    ensures CallsIn(batches + [Batch(repeated, calls)]) == CallsIn(batches) + calls
  {
    var more := batches + [Batch(repeated, calls)];
    assert more[..|batches|] == batches;
    assert forall i :: 0 <= i < |batches| ==> more[..i] == batches[..i] && more[i] == batches[i];
  }

  lemma AnswersNext(replies: seq<Message>, calls: seq<Call>, reply: Message)
    requires Answers(replies, calls) && |replies| < |calls| && Answers([reply], [calls[|replies|]])
    ensures Answers(replies + [reply], calls)
  {
    assert [reply][0] == reply && [calls[|replies|]][0] == calls[|replies|];
  }

  lemma ClosedByAnswers(tail: seq<Message>, said: Message, replies: seq<Message>)
    requires Closed(tail) && said.Assistant? && said.calls != []
    requires |replies| == |said.calls| && Answers(replies, said.calls)
    ensures Closed(tail + [said] + replies)
  {
    var all, n := tail + [said] + replies, |tail|;
    assert all[n] == said && all[n + 1..] == replies && all[..n] == tail;
    assert ClosedAt(all, n);
  }
}
