/** The budgeted tool loop of the agent runtime.
 *
 * A run reads its environment from a stream of moments, one per await or yield: whether the caller cancelled or the
 * deadline passed meanwhile, whether the awaited promise rejected, and what it resolved to.
 */
module AgentRuntime {
  import opened Prelude
  import opened AgentTrace

  /** The generator's variables. `requests`, `batches`, `dispatched` and `returned` are history: the model requests
      made, the batches let through, the calls handed to the dispatcher and what it returned. */
  datatype State = State(
    messages: seq<Message>, toolCount: nat, sideEffects: bool, activeProvider: nat, repeated: map<string, nat>,
    cancelled: bool, timedOut: bool, clock: nat, events: seq<Event>,
    requests: seq<Request>, batches: seq<Batch>, dispatched: seq<Call>, returned: seq<string>)
  {
    function Done(): Work {
      Work(dispatched, returned)
    }

    predicate Aborted() {
      cancelled || timedOut
    }
  }

  type Env = nat -> Moment

  function Initial(input: seq<Message>): State {
    State(input, 0, false, 0, map[], false, false, 0, [], [], [], [], [])
  }

  /** One await or yield goes by. */
  function Tick(env: Env, s: State): State {
    var m := env(s.clock);
    s.(clock := s.clock + 1, cancelled := s.cancelled || m.cancel, timedOut := s.timedOut || m.deadline)
  }

  function Emit(env: Env, s: State, e: Event): State {
    Tick(env, s.(events := s.events + [e]))
  }

  function Show(c: Config, s: State): View {
    Read(c, s.events)
  }

  ghost predicate Going(c: Config, input: seq<Message>, s: State) {
    && Runnable(c) && s.activeProvider < c.providers && input <= s.messages
    && RequestsOk(c, input, s.Done(), s.requests) && Forward(s.requests)
    && TraceOk(Show(c, s), s.requests, s.Done())
    && PinnedTo(Show(c, s), s.activeProvider) && (s.sideEffects || Show(c, s).proposers == {})
    && BatchesOk(c, s.batches) && s.dispatched <= CallsIn(s.batches)
    && s.toolCount == |s.returned| <= |s.dispatched| <= c.maxToolCalls
    && Show(c, s).terminals == 0
  }

  /** No call is open: all that were announced have been dispatched and have completed. */
  predicate InStep(c: Config, s: State) {
    Show(c, s).completed == s.dispatched == Show(c, s).announced && Show(c, s).results == s.returned
  }

  /** The active provider gave the latest response. */
  predicate Answered(c: Config, s: State) {
    Show(c, s).answered == Some(s.activeProvider)
  }

  /** Between rounds every call let through has been dispatched, counted, answered and written to the transcript. */
  ghost predicate Settled(c: Config, input: seq<Message>, s: State) {
    && Going(c, input, s) && InStep(c, s)
    && Closed(s.messages[|input|..])
    && CallsSaid(s.messages[|input|..]) == s.dispatched && ResultsSaid(s.messages[|input|..]) == s.returned
    && s.dispatched == CallsIn(s.batches) && Counted(s.repeated, s.dispatched) && s.toolCount == |s.dispatched|
  }

  /** An event of neither the model requests nor the tools. */
  predicate Plain(e: Event) {
    !Terminal(e) && !e.ModelRequested? && !e.ToolStarted? && !e.ToolCompleted?
  }

  lemma EmitKeeps(c: Config, input: seq<Message>, env: Env, s: State, e: Event)
    requires Going(c, input, s) && Plain(e)
    ensures Going(c, input, Emit(env, s, e))
    ensures Show(c, Emit(env, s, e)).iterations == Show(c, s).iterations + if e.IterationStarted? then 1 else 0
    ensures Settled(c, input, s) ==> Settled(c, input, Emit(env, s, e))
  {
    ReadNext(c, s.events, e);
  }

  lemma AnnounceKeeps(c: Config, input: seq<Message>, env: Env, s: State, call: Call)
    requires Going(c, input, s) && InStep(c, s)
    ensures var s' := Emit(env, s, ToolStarted(call));
      && Going(c, input, s') && Show(c, s').iterations == Show(c, s).iterations
      && Show(c, s').completed == s.dispatched && Show(c, s').announced == s.dispatched + [call]
      && Show(c, s').results == s.returned && Show(c, s').answered == Show(c, s).answered
  {
    ReadNext(c, s.events, ToolStarted(call));
  }

  lemma CompleteKeeps(c: Config, input: seq<Message>, env: Env, s: State, call: Call, result: string)
    requires Going(c, input, s) && Answered(c, s)
    requires s.dispatched == Show(c, s).completed + [call] == Show(c, s).announced
    requires s.returned == Show(c, s).results + [result]
    requires c.classify(call.name) == ProposalEffect ==> s.sideEffects
    ensures var s' := Emit(env, s, ToolCompleted(call, result));
      && Going(c, input, s') && Show(c, s').iterations == Show(c, s).iterations
      && InStep(c, s') && Show(c, s').answered == Show(c, s).answered
  {
    ReadNext(c, s.events, ToolCompleted(call, result));
  }

  /** The request as it is sent. */
  function RequestTo(s: State, index: nat): Request {
    Request(index, s.messages, |s.dispatched|)
  }

  /** Announce the request and send it. */
  function Requested(env: Env, s: State, index: nat): State {
    Emit(env, s, ModelRequested(index)).(requests := s.requests + [RequestTo(s, index)])
  }

  lemma AskKeeps(c: Config, input: seq<Message>, env: Env, s: State, index: nat)
    requires Settled(c, input, s) && index < c.providers && (s.sideEffects ==> index == s.activeProvider)
    requires AskedUpTo(s.requests, index)
    ensures var s' := Requested(env, s, index);
      Settled(c, input, s') && AskedUpTo(s'.requests, index) && Show(c, s').iterations == Show(c, s).iterations
  {
    ReadNext(c, s.events, ModelRequested(index));
    RequestToIsOk(c, input, s, index);
    RequestsNext(c, input, s.Done(), s.requests, RequestTo(s, index));
  }

  lemma RequestToIsOk(c: Config, input: seq<Message>, s: State, index: nat)
    requires Settled(c, input, s) && index < c.providers
    ensures RequestOk(c, input, s.Done(), RequestTo(s, index))
  {
    assert s.dispatched[..|s.dispatched|] == s.dispatched && s.returned[..|s.dispatched|] == s.returned;
  }

  lemma RequestsNext(c: Config, input: seq<Message>, work: Work, requests: seq<Request>, r: Request)
    requires RequestsOk(c, input, work, requests) && RequestOk(c, input, work, r)
    requires Forward(requests) && AskedUpTo(requests, r.provider)
    ensures RequestsOk(c, input, work, requests + [r])
    ensures Forward(requests + [r]) && AskedUpTo(requests + [r], r.provider)
  {
    var more := requests + [r];
    forall i | 0 <= i < |more|
      ensures RequestOk(c, input, work, more[i])
    {
      if i < |requests| {
        assert more[i] == requests[i] && RequestOk(c, input, work, requests[i]);
      }
    }
  }

  /** The request has been sent and its promise settled. */
  function AfterAsk(env: Env, s: State, index: nat): State {
    Tick(env, Requested(env, s, index))
  }

  /** ... with a valid response. */
  function AfterAnswer(env: Env, s: State, index: nat): State {
    Emit(env, AfterAsk(env, s, index).(activeProvider := index), ModelResponded(index))
  }

  /** What one request leaves behind. */
  ghost predicate AskedOnce(c: Config, input: seq<Message>, before: State, s: State, index: nat) {
    && Settled(c, input, s) && AskedUpTo(s.requests, index)
    && s.requests == before.requests + [RequestTo(before, index)]
    && s.sideEffects == before.sideEffects && s.messages == before.messages && s.Done() == before.Done()
    && Show(c, s).iterations == Show(c, before).iterations
  }

  lemma AskedKeeps(c: Config, input: seq<Message>, env: Env, s: State, index: nat)
    requires Settled(c, input, s) && index < c.providers && (s.sideEffects ==> index == s.activeProvider)
    requires AskedUpTo(s.requests, index)
    ensures AskedOnce(c, input, s, AfterAsk(env, s, index), index)
  {
    AskKeeps(c, input, env, s, index);
  }

  lemma AnsweredKeeps(c: Config, input: seq<Message>, env: Env, s: State, index: nat)
    requires Settled(c, input, s) && index < c.providers && (s.sideEffects ==> index == s.activeProvider)
    requires AskedUpTo(s.requests, index)
    ensures AskedOnce(c, input, s, AfterAnswer(env, s, index), index) && Answered(c, AfterAnswer(env, s, index))
  {
    var switched := AfterAsk(env, s, index).(activeProvider := index);
    AskedKeeps(c, input, env, s, index);
    SwitchKeeps(c, input, AfterAsk(env, s, index), index);
    EmitKeeps(c, input, env, switched, ModelResponded(index));
    ReadNext(c, switched.events, ModelResponded(index));
  }

  lemma SwitchKeeps(c: Config, input: seq<Message>, s: State, index: nat)
    requires Settled(c, input, s) && index < c.providers && (s.sideEffects ==> index == s.activeProvider)
    ensures Settled(c, input, s.(activeProvider := index))
  {
  }

  /** `n` requests over one transcript, to the active provider and its successors. */
  function Tries(s: State, n: nat): (tries: seq<Request>)
    ensures |tries| == n
  {
    if n == 0 then [] else Tries(s, n - 1) + [RequestTo(s, s.activeProvider + n - 1)]
  }

  /** After `made` requests, to one provider after the other and over one transcript, none of which changed the work. */
  ghost predicate Asking(c: Config, input: seq<Message>, before: State, s: State, made: nat) {
    && Settled(c, input, s) && s.sideEffects == before.sideEffects
    && s.messages == before.messages && s.Done() == before.Done()
    && s.requests == before.requests + Tries(before, made)
    && Show(c, s).iterations == Show(c, before).iterations
  }

  /** One request, over the transcript as it stands; `answer` is None when this provider failed. */
  method AskOne(c: Config, input: seq<Message>, env: Env, before: State, index: nat)
      returns (s: State, answer: Option<Message>)
    requires Settled(c, input, before) && index < c.providers && (before.sideEffects ==> index == before.activeProvider)
    requires AskedUpTo(before.requests, index)
    ensures AskedOnce(c, input, before, s, index)
    ensures answer.Some? ==> answer.value.Assistant? && Answered(c, s)
    ensures s.activeProvider == if answer.Some? then index else before.activeProvider
  {
    AskedKeeps(c, input, env, before, index);
    AnsweredKeeps(c, input, env, before, index);
    s := Requested(env, before, index);
    var late, m := s.Aborted(), env(s.clock);
    s := Tick(env, s);
    if late || m.rejects || m.response.None? || !m.response.value.Assistant? {
      return s, None;
    }
    s := s.(activeProvider := index);
    s, answer := Emit(env, s, ModelResponded(index)), m.response;
  }

  lemma AskedAgain(c: Config, input: seq<Message>, before: State, s: State, s': State, made: nat)
    requires Asking(c, input, before, s, made) && AskedOnce(c, input, s, s', before.activeProvider + made)
    ensures Asking(c, input, before, s', made + 1)
  {
    assert Tries(before, made + 1) == Tries(before, made) + [RequestTo(before, before.activeProvider + made)];
  }

  /** The model has been asked: by how many requests, and who answered. */
  ghost predicate Consulted(c: Config, input: seq<Message>, before: State, s: State, ok: bool) {
    && |before.requests| <= |s.requests| && Asking(c, input, before, s, |s.requests| - |before.requests|)
    && |s.requests| <= |before.requests| + (if before.sideEffects then 1 else c.providers)
    && (ok ==> Answered(c, s) && |s.requests| > |before.requests| && AskedUpTo(s.requests, s.activeProvider))
    && s.activeProvider == before.activeProvider + if ok then |s.requests| - |before.requests| - 1 else 0
  }

  lemma ConsultedAfter(c: Config, input: seq<Message>, before: State, s: State, made: nat, ok: bool)
    requires Asking(c, input, before, s, made) && (ok ==> made > 0)
    requires made <= if before.sideEffects then 1 else c.providers
    requires s.activeProvider == before.activeProvider + if ok then made - 1 else 0
    requires ok ==> Answered(c, s) && AskedUpTo(s.requests, s.activeProvider)
    ensures Consulted(c, input, before, s, ok)
  {
  }

  /** Ask the active provider, then its successors in order; none but the active one after a side effect. The provider
      that answers becomes the active one. */
  method AskModel(c: Config, input: seq<Message>, env: Env, before: State)
    returns (s: State, r: Result<Message, string>)
    requires Settled(c, input, before) && AskedUpTo(before.requests, before.activeProvider)
    ensures Consulted(c, input, before, s, r.Ok?)
    ensures r.Ok? ==> r.value.Assistant?
  {
    s, r := before, Err("MODEL_ERROR");
    ghost var made := 0;
    var index := s.activeProvider;
    while index < c.providers
      invariant index == before.activeProvider + made <= c.providers
      invariant Asking(c, input, before, s, made)
      invariant s.activeProvider == before.activeProvider && AskedUpTo(s.requests, index)
      invariant s.sideEffects ==> made == 0
      invariant r == Err("MODEL_ERROR")
      decreases c.providers - index
    {
      var answer;
      ghost var was := s;
      s, answer := AskOne(c, input, env, s, index);
      AskedAgain(c, input, before, was, s, made);
      made := made + 1;
      if answer.Some? {
        r := Ok(answer.value);
        break;
      }
      if s.Aborted() {
        r := Err("ABORTED");
        break;
      }
      FailureKeeps(c, input, env, before, s, made, index);
      s := Emit(env, s, ProviderFailed(index));
      if s.sideEffects || index == c.providers - 1 {
        break;
      }
      AskedFurther(s.requests, index);
      index := index + 1;
    }
    ConsultedAfter(c, input, before, s, made, r.Ok?);
  }

  lemma AskedFurther(requests: seq<Request>, n: nat)
    requires AskedUpTo(requests, n)
    ensures AskedUpTo(requests, n + 1)
  {
  }

  lemma FailureKeeps(c: Config, input: seq<Message>, env: Env, before: State, s: State, made: nat, index: nat)
    requires Asking(c, input, before, s, made)
    ensures Asking(c, input, before, Emit(env, s, ProviderFailed(index)), made)
  {
    EmitKeeps(c, input, env, s, ProviderFailed(index));
  }

  /** The first fault among the calls, in order. */
  method CheckBatch(c: Config, repeated: map<string, nat>, calls: seq<Call>) returns (fault: Option<string>)
    ensures fault.None? <==> BatchOk(c, repeated, calls)
  {
    for k := 0 to |calls|
      invariant forall j :: 0 <= j < k ==> Fault(c, repeated, calls, j) == None
    {
      fault := Fault(c, repeated, calls, k);
      if fault.Some? {
        return;
      }
    }
    fault := None;
  }

  /** What one call may change, finished or not. */
  ghost predicate Ran(c: Config, input: seq<Message>, before: State, s: State, call: Call) {
    && Going(c, input, s)
    && s.batches == before.batches && s.requests == before.requests && s.activeProvider == before.activeProvider
    && Show(c, s).iterations == Show(c, before).iterations && Show(c, s).answered == Show(c, before).answered
  }

  /** The call is answered, once, with what was returned for it. */
  ghost predicate Finished(c: Config, before: State, s: State, call: Call, reply: Message) {
    && s.dispatched == before.dispatched + [call] && s.toolCount == before.toolCount + 1
    && s.repeated == before.repeated[call.signature := Count(before.repeated, call.signature) + 1]
    && s.messages == before.messages + [reply] && Answers([reply], [call]) && InStep(c, s)
    && reply.Tool? && s.returned == before.returned + [reply.output]
  }

  /** The dispatcher resolved to `output` while the call was running. */
  ghost predicate Heard(env: Env, before: State, s: State, output: string) {
    exists n | before.clock <= n < s.clock :: env(n).result == output
  }

  /** The events and the dispatch a call leaves behind. It is dispatched only once announced, and completed only once
      dispatched; a failure after completion is the one that calls for reconciliation, and no failure is answered in the
      transcript. */
  predicate Traced(before: State, s: State, call: Call, failure: Option<string>) {
    && before.events <= s.events
    && var n := |s.events| - |before.events|;
    && n <= 2
    && (n >= 1 ==> s.events[|before.events|] == ToolStarted(call))
    && (n == 2 ==> s.events[|before.events| + 1].ToolCompleted? && s.events[|before.events| + 1].completed == call)
    && (s.dispatched == before.dispatched || (s.dispatched == before.dispatched + [call] && n >= 1))
    && (n == 2 ==> s.dispatched == before.dispatched + [call])
    && (n == 2 <==> failure.None? || failure == Some("RECONCILIATION_REQUIRED"))
    && (failure.Some? ==> s.messages == before.messages)
  }

  lemma RequestsSurvive(c: Config, input: seq<Message>, work: Work, more: Work, requests: seq<Request>)
    requires RequestsOk(c, input, work, requests)
    requires work.dispatched <= more.dispatched && work.returned <= more.returned
    ensures RequestsOk(c, input, more, requests)
  {
    forall i | 0 <= i < |requests|
      ensures RequestOk(c, input, more, requests[i])
    {
      var r := requests[i];
      assert RequestOk(c, input, work, r);
      assert more.dispatched[..r.made] == work.dispatched[..r.made]
        && more.returned[..r.made] == work.returned[..r.made];
    }
  }

  lemma DispatchKeeps(c: Config, input: seq<Message>, s: State, call: Call)
    requires Going(c, input, s) && |s.dispatched| < c.maxToolCalls && s.dispatched + [call] <= CallsIn(s.batches)
    requires s.dispatched + [call] <= Show(c, s).announced
    ensures Going(c, input, s.(dispatched := s.dispatched + [call]))
  {
    RequestsSurvive(c, input, s.Done(), s.(dispatched := s.dispatched + [call]).Done(), s.requests);
  }

  lemma ReturnKeeps(c: Config, input: seq<Message>, s: State, effect: Effect, result: string)
    requires Going(c, input, s) && |s.returned| < |s.dispatched|
    ensures Going(c, input, Returned(s, effect, result))
  {
    RequestsSurvive(c, input, s.Done(), Returned(s, effect, result).Done(), s.requests);
  }

  /** The dispatcher has answered. */
  function Returned(s: State, effect: Effect, result: string): State {
    s.(toolCount := s.toolCount + 1, sideEffects := s.sideEffects || effect == ProposalEffect,
       returned := s.returned + [result])
  }

  /** Fields a pause between two steps cannot change. */
  predicate SameWork(a: State, b: State) {
    && b.messages == a.messages && b.toolCount == a.toolCount && b.sideEffects == a.sideEffects
    && b.activeProvider == a.activeProvider && b.repeated == a.repeated && b.requests == a.requests
    && b.batches == a.batches && b.Done() == a.Done() && a.clock <= b.clock
  }

  /** Announce the call. */
  method Plan(c: Config, input: seq<Message>, env: Env, before: State, call: Call) returns (s: State, failed: bool)
    requires Going(c, input, before) && InStep(c, before)
    ensures Going(c, input, s) && SameWork(before, s) && Show(c, s).iterations == Show(c, before).iterations
    ensures s.events == before.events + [ToolStarted(call)] || (failed && s.events == before.events)
    ensures Show(c, s).answered == Show(c, before).answered
    ensures !failed ==>
      && Show(c, s).completed == s.dispatched && Show(c, s).announced == s.dispatched + [call]
      && Show(c, s).results == s.returned
  {
    var planned := env(before.clock);
    s := Tick(env, before);
    if planned.rejects {
      return s, true;
    }
    AnnounceKeeps(c, input, env, s, call);
    s := Emit(env, s, ToolStarted(call));
    failed := env(s.clock).rejects;
    s := Tick(env, s);
  }

  /** Up to the record of the dispatcher's answer. */
  method Dispatch(c: Config, input: seq<Message>, env: Env, before: State, call: Call)
    returns (s: State, failure: Option<string>, output: string)
    requires Going(c, input, before) && InStep(c, before) && |before.returned| == |before.dispatched| < c.maxToolCalls
    requires before.dispatched + [call] <= CallsIn(before.batches)
    ensures Ran(c, input, before, s, call) && s.messages == before.messages && s.repeated == before.repeated
    ensures s.events == before.events + [ToolStarted(call)] || (failure.Some? && s.events == before.events)
    ensures s.dispatched == before.dispatched
      || (s.dispatched == before.dispatched + [call] && s.events == before.events + [ToolStarted(call)])
    ensures failure.Some? ==> failure == Some("MODEL_ERROR")
    ensures failure.None? ==>
      && s.dispatched == before.dispatched + [call] && s.toolCount == before.toolCount + 1
      && s.dispatched == Show(c, s).completed + [call] == Show(c, s).announced
      && s.returned == before.returned + [output] == Show(c, s).results + [output] && Heard(env, before, s, output)
      && (c.classify(call.name) == ProposalEffect ==> s.sideEffects)
  {
    var failed;
    s, failed := Plan(c, input, env, before, call);
    if failed {
      return s, Some("MODEL_ERROR"), "";
    }
    var late, answer := s.Aborted(), env(s.clock);
    ghost var asked := s.clock;
    DispatchKeeps(c, input, s, call);
    s := Tick(env, s.(dispatched := s.dispatched + [call]));
    if late || answer.rejects {
      return s, Some("MODEL_ERROR"), "";
    }
    ReturnKeeps(c, input, s, c.classify(call.name), answer.result);
    s := Returned(s, c.classify(call.name), answer.result);
    var recorded := env(s.clock);
    s := Tick(env, s);
    failure, output := if recorded.rejects then Some("MODEL_ERROR") else None, answer.result;
    assert env(asked).result == output;
  }

  method RunTool(c: Config, input: seq<Message>, env: Env, before: State, call: Call)
    returns (s: State, failure: Option<string>, reply: Message)
    requires Going(c, input, before) && InStep(c, before) && Answered(c, before)
    requires |before.returned| == |before.dispatched| < c.maxToolCalls
    requires before.dispatched + [call] <= CallsIn(before.batches)
    ensures Ran(c, input, before, s, call) && Traced(before, s, call, failure)
    ensures failure.None? ==> Finished(c, before, s, call, reply) && Heard(env, before, s, reply.output)
  {
    var output;
    CountKeeps(c, input, before, before.repeated[call.signature := Count(before.repeated, call.signature) + 1]);
    s := before.(repeated := before.repeated[call.signature := Count(before.repeated, call.signature) + 1]);
    s, failure, output := Dispatch(c, input, env, s, call);
    reply := Tool(call.id, call.name, output);
    if failure.Some? {
      TracedFailure(before, s, call);
      return;
    }
    ToolCompletes(c, input, env, before, s, call, reply);
    s := Emit(env, s, ToolCompleted(call, output));
    var stored := env(s.clock);
    s := Tick(env, s);
    if stored.rejects {
      return s, Some("RECONCILIATION_REQUIRED"), reply;
    }
    s := s.(messages := s.messages + [reply]);
  }

  /** `s` is the state the dispatcher left: the answer is announced, then stored or not. */
  lemma ToolCompletes(c: Config, input: seq<Message>, env: Env, before: State, s: State, call: Call, reply: Message)
    requires Ran(c, input, before, s, call) && Answered(c, before) && s.messages == before.messages && reply.Tool?
    requires reply.callId == call.id && reply.toolName == call.name
    requires s.events == before.events + [ToolStarted(call)]
    requires s.dispatched == before.dispatched + [call] && s.toolCount == before.toolCount + 1
    requires s.repeated == before.repeated[call.signature := Count(before.repeated, call.signature) + 1]
    requires s.dispatched == Show(c, s).completed + [call] == Show(c, s).announced
    requires s.returned == before.returned + [reply.output] == Show(c, s).results + [reply.output]
    requires c.classify(call.name) == ProposalEffect ==> s.sideEffects
    ensures var unstored := Tick(env, Emit(env, s, ToolCompleted(call, reply.output)));
      && Ran(c, input, before, unstored, call) && Traced(before, unstored, call, Some("RECONCILIATION_REQUIRED"))
      && var stored := unstored.(messages := unstored.messages + [reply]);
      Ran(c, input, before, stored, call) && Traced(before, stored, call, None)
        && Finished(c, before, stored, call, reply)
  {
    var completed := Emit(env, s, ToolCompleted(call, reply.output));
    CompleteKeeps(c, input, env, s, call, reply.output);
    ReplyKeeps(c, input, env, completed, reply);
    var stored := Tick(env, completed).(messages := completed.messages + [reply]);
    TracedCompletion(before, Tick(env, completed), call, reply.output);
    TracedCompletion(before, stored, call, reply.output);
    assert [reply][0] == reply && [call][0] == call;
  }

  lemma CountKeeps(c: Config, input: seq<Message>, s: State, repeated: map<string, nat>)
    requires Going(c, input, s)
    ensures Going(c, input, s.(repeated := repeated))
  {
  }

  lemma ReplyKeeps(c: Config, input: seq<Message>, env: Env, s: State, reply: Message)
    requires Going(c, input, s)
    ensures Going(c, input, Tick(env, s)) && Going(c, input, Tick(env, s).(messages := s.messages + [reply]))
  {
  }

  lemma TracedFailure(before: State, s: State, call: Call)
    requires s.events == before.events || s.events == before.events + [ToolStarted(call)]
    requires s.dispatched == before.dispatched
      || (s.dispatched == before.dispatched + [call] && s.events == before.events + [ToolStarted(call)])
    requires s.messages == before.messages
    ensures Traced(before, s, call, Some("MODEL_ERROR"))
  {
  }

  lemma TracedCompletion(before: State, s: State, call: Call, result: string)
    requires s.events == before.events + [ToolStarted(call)] + [ToolCompleted(call, result)]
    requires s.dispatched == before.dispatched + [call]
    ensures s.messages == before.messages ==> Traced(before, s, call, Some("RECONCILIATION_REQUIRED"))
    ensures Traced(before, s, call, None)
  {
  }

  /** The batch has been run: said, dispatched and answered, in order, with what was returned. */
  ghost predicate BatchRan(before: State, s: State, said: Message)
    requires said.Assistant?
  {
    && s.dispatched == before.dispatched + said.calls
    && |s.messages| == |before.messages| + 1 + |said.calls| && before.messages + [said] <= s.messages
    && Answers(s.messages[|before.messages| + 1..], said.calls)
    && s.returned == before.returned + ResultsSaid(s.messages[|before.messages| + 1..])
  }

  /** Whether the batch may start at all. */
  ghost predicate BatchAdmitted(c: Config, s: State, calls: seq<Call>) {
    s.toolCount + |calls| <= c.maxToolCalls && c.hasTools && BatchOk(c, s.repeated, calls)
  }

  /** One batch: checked as a whole, then run in order. */
  method RunTools(c: Config, input: seq<Message>, env: Env, before: State, said: Message)
    returns (s: State, failure: Option<string>)
    requires Settled(c, input, before) && Answered(c, before) && said.Assistant? && said.calls != []
    ensures Going(c, input, s) && (failure.None? ==> Settled(c, input, s) && BatchRan(before, s, said))
    ensures !BatchAdmitted(c, before, said.calls) ==>
      failure.Some? && s.dispatched == before.dispatched && s.messages == before.messages && s.events == before.events
    ensures s.requests == before.requests && s.activeProvider == before.activeProvider
    ensures Show(c, s).iterations == Show(c, before).iterations
  {
    s := before;
    var calls := said.calls;
    if s.toolCount + |calls| > c.maxToolCalls {
      return s, Some("TOOL_BUDGET_EXCEEDED");
    }
    if !c.hasTools {
      return s, Some("NO_TOOL_DISPATCHER");
    }
    failure := CheckBatch(c, s.repeated, calls);
    if failure.Some? {
      return;
    }
    TickKeeps(c, input, env, before);
    var stored := env(s.clock);
    s := Tick(env, s);
    if stored.rejects {
      return s, Some("MODEL_ERROR");
    }
    BatchStarts(c, input, env, before, said);
    s := s.(messages := s.messages + [said], batches := s.batches + [Batch(s.repeated, calls)]);
    ghost var started := s;
    s, failure := RunCalls(c, input, env, s, before.messages[|input|..], said);
    if failure.None? {
      BatchHasRun(before, started, s, said);
    }
  }

  lemma BatchHasRun(before: State, started: State, s: State, said: Message)
    requires said.Assistant? && started.messages == before.messages + [said] && started.messages <= s.messages
    requires |s.messages| == |started.messages| + |said.calls| && s.dispatched == before.dispatched + said.calls
    requires Answers(s.messages[|started.messages|..], said.calls)
    requires s.returned == before.returned + ResultsSaid(s.messages[|started.messages|..])
    ensures BatchRan(before, s, said)
  {
  }

  /** Said and let through, nothing dispatched yet. */
  lemma BatchStarts(c: Config, input: seq<Message>, env: Env, before: State, said: Message)
    requires Settled(c, input, before) && Answered(c, before) && said.Assistant?
      && BatchOk(c, before.repeated, said.calls)
    ensures Started(c, input, Saying(env, before, said), before.messages[|input|..], said)
  {
    BatchesNext(c, before.batches, before.repeated, said.calls);
    SaidNext(input, before.messages, said);
    SayingKeeps(c, input, env, before, said);
    SayingStarts(c, input, before, Saying(env, before, said), before.messages[|input|..], said);
  }

  lemma SaidNext(input: seq<Message>, messages: seq<Message>, said: Message)
    requires input <= messages
    ensures messages + [said] == input + (messages[|input|..] + [said])
  {
  }

  /** Nothing has been dispatched since the transcript was closed. */
  lemma SayingStarts(c: Config, input: seq<Message>, before: State, s: State, tail: seq<Message>, said: Message)
    requires Settled(c, input, before) && Answered(c, before) && tail == before.messages[|input|..]
    requires Going(c, input, s) && said.Assistant? && s.messages == input + (tail + [said])
    requires s.events == before.events && s.Done() == before.Done() && s.activeProvider == before.activeProvider
    requires s.repeated == before.repeated && s.toolCount == before.toolCount
    requires CallsIn(s.batches) == s.dispatched + said.calls
    ensures Started(c, input, s, tail, said)
  {
  }

  lemma SayingKeeps(c: Config, input: seq<Message>, env: Env, s: State, said: Message)
    requires Going(c, input, s) && said.Assistant? && BatchesOk(c, s.batches + [Batch(s.repeated, said.calls)])
    requires s.dispatched <= CallsIn(s.batches + [Batch(s.repeated, said.calls)])
    ensures Going(c, input, Saying(env, s, said))
  {
  }

  lemma TickKeeps(c: Config, input: seq<Message>, env: Env, s: State)
    requires Going(c, input, s)
    ensures Going(c, input, Tick(env, s))
  {
  }

  /** The batch is let through and written to the transcript. */
  function Saying(env: Env, s: State, said: Message): State
    requires said.Assistant?
  {
    Tick(env, s).(messages := s.messages + [said], batches := s.batches + [Batch(s.repeated, said.calls)])
  }

  /** `tail` is the closed transcript before this batch. */
  ghost predicate Started(c: Config, input: seq<Message>, s: State, tail: seq<Message>, said: Message) {
    && Going(c, input, s) && InStep(c, s) && Answered(c, s) && said.Assistant?
    && Closed(tail) && CallsSaid(tail) == s.dispatched && ResultsSaid(tail) == s.returned
    && s.messages == input + (tail + [said]) && CallsIn(s.batches) == s.dispatched + said.calls
    && Counted(s.repeated, s.dispatched) && s.toolCount == |s.dispatched|
  }

  /** `|replies|` calls of the batch have been run. */
  ghost predicate Midway(
    c: Config, input: seq<Message>, before: State, s: State, calls: seq<Call>, replies: seq<Message>)
  {
    && |replies| <= |calls| && Answers(replies, calls)
    && Going(c, input, s) && InStep(c, s) && s.batches == before.batches && s.messages == before.messages + replies
    && s.dispatched == before.dispatched + calls[..|replies|] && s.returned == before.returned + ResultsSaid(replies)
    && Counted(s.repeated, s.dispatched) && s.toolCount == |s.dispatched|
    && s.requests == before.requests && s.activeProvider == before.activeProvider
    && Show(c, s).iterations == Show(c, before).iterations && Show(c, s).answered == Show(c, before).answered
  }

  lemma MidwayNext(
    c: Config, input: seq<Message>, before: State, s: State, s': State, calls: seq<Call>, replies: seq<Message>,
    reply: Message)
    requires Midway(c, input, before, s, calls, replies) && |replies| < |calls|
    requires Ran(c, input, s, s', calls[|replies|]) && Finished(c, s, s', calls[|replies|], reply)
    ensures Midway(c, input, before, s', calls, replies + [reply])
  {
    NextCall(before.dispatched, calls, |replies|);
    CountedNext(s.repeated, s.dispatched, calls[|replies|]);
    AnswersNext(replies, calls, reply);
    OneResultSaid(replies, reply);
    assert before.messages + replies + [reply] == before.messages + (replies + [reply]);
    assert before.returned + ResultsSaid(replies) + [reply.output]
      == before.returned + (ResultsSaid(replies) + [reply.output]);
  }

  /** All calls have been run: the transcript is closed again. */
  lemma MidwayEnds(
    c: Config, input: seq<Message>, before: State, s: State, tail: seq<Message>, said: Message, replies: seq<Message>)
    requires Started(c, input, before, tail, said) && said.calls != []
    requires Midway(c, input, before, s, said.calls, replies) && |replies| == |said.calls|
    ensures Settled(c, input, s) && s.dispatched == before.dispatched + said.calls
    ensures s.messages[|before.messages|..] == replies
  {
    ClosedByAnswers(tail, said, replies);
    CallsOfBatch(tail, said, replies);
    ResultsOfBatch(tail, said, replies);
    assert said.calls[..|said.calls|] == said.calls;
    TailOf(input, tail, said, replies);
  }

  method RunCalls(c: Config, input: seq<Message>, env: Env, before: State, ghost tail: seq<Message>, said: Message)
    returns (s: State, failure: Option<string>)
    requires Started(c, input, before, tail, said) && said.calls != []
    requires |before.dispatched| + |said.calls| <= c.maxToolCalls
    ensures Going(c, input, s)
    ensures failure.None? ==>
      && Settled(c, input, s) && s.dispatched == before.dispatched + said.calls
      && |s.messages| == |before.messages| + |said.calls| && before.messages <= s.messages
      && Answers(s.messages[|before.messages|..], said.calls)
      && s.returned == before.returned + ResultsSaid(s.messages[|before.messages|..])
    ensures s.requests == before.requests && s.activeProvider == before.activeProvider
    ensures Show(c, s).iterations == Show(c, before).iterations
  {
    s := before;
    var calls := said.calls;
    ghost var replies: seq<Message> := [];
    assert calls[..0] == [] && before.messages + replies == before.messages;
    for k := 0 to |calls|
      invariant |replies| == k && Midway(c, input, before, s, calls, replies)
    {
      NextCall(before.dispatched, calls, k);
      var reply;
      ghost var was := s;
      s, failure, reply := RunTool(c, input, env, s, calls[k]);
      if failure.Some? {
        return;
      }
      MidwayNext(c, input, before, was, s, calls, replies, reply);
      replies := replies + [reply];
    }
    MidwayEnds(c, input, before, s, tail, said, replies);
    failure := None;
  }

  lemma TailOf(input: seq<Message>, tail: seq<Message>, said: Message, replies: seq<Message>)
    ensures (input + (tail + [said]) + replies)[|input|..] == tail + [said] + replies
  {
  }

  lemma NextCall(done: seq<Call>, calls: seq<Call>, k: nat)
    requires k < |calls|
    ensures done + calls[..k] + [calls[k]] == done + calls[..k + 1] <= done + calls
  {
  }

  /** `k` providers, `n` times. */
  function Times(n: nat, k: nat): nat {
    if n == 0 then 0 else Times(n - 1, k) + k
  }

  lemma {:induction false} TimesGrows(m: nat, n: nat, k: nat)
    requires m <= n
    ensures Times(m, k) <= Times(n, k)
    decreases n
  {
    if m < n {
      TimesGrows(m, n - 1, k);
    }
  }

  lemma {:induction false} TimesIsProduct(n: nat, k: nat)
    ensures Times(n, k) == n * k
  {
    if n > 0 {
      TimesIsProduct(n - 1, k);
      assert n * k == (n - 1) * k + k;
    }
  }

  /** What `n` rounds may have used up. */
  ghost predicate Within(c: Config, s: State, n: nat) {
    Show(c, s).iterations <= n && |s.requests| <= Times(n, c.providers)
  }

  lemma OneMoreRound(c: Config, before: State, s: State, n: nat)
    requires Within(c, before, n)
    requires Show(c, s).iterations <= Show(c, before).iterations + 1 && |s.requests| <= |before.requests| + c.providers
    ensures Within(c, s, n + 1)
  {
  }

  lemma MoreRounds(c: Config, s: State, n: nat)
    requires Within(c, s, n) && n <= c.maxIterations
    ensures Show(c, s).iterations <= c.maxIterations && |s.requests| <= c.maxIterations * c.providers
  {
    TimesGrows(n, c.maxIterations, c.providers);
    TimesIsProduct(c.maxIterations, c.providers);
  }

  /** After `n` rounds the run can go on ... */
  ghost predicate GoesOn(c: Config, input: seq<Message>, s: State, n: nat) {
    Settled(c, input, s) && AskedUpTo(s.requests, s.activeProvider) && Within(c, s, n)
  }

  /** ... or is over, but for its terminal event. */
  ghost predicate Over(c: Config, input: seq<Message>, s: State, n: nat) {
    Going(c, input, s) && Within(c, s, n)
  }

  /** What a response leads to: the end of the run, or a batch of tools. */
  method Respond(c: Config, input: seq<Message>, env: Env, before: State, said: Message, iteration: nat)
    returns (s: State, end: Option<Event>)
    requires Settled(c, input, before) && Answered(c, before) && said.Assistant?
    ensures Going(c, input, s) && (end.Some? ==> Terminal(end.value)) && (end.None? ==> Settled(c, input, s))
    ensures s.requests == before.requests && s.activeProvider == before.activeProvider
    ensures Show(c, s).iterations == Show(c, before).iterations
  {
    s := before;
    if said.calls == [] {
      var stored := env(s.clock);
      s := Tick(env, s);
      return s, Some(if stored.rejects then RunFailed("MODEL_ERROR") else RunCompleted(iteration, s.toolCount));
    }
    if iteration == c.maxIterations {
      return s, Some(RunFailed("ITERATION_BUDGET_EXCEEDED"));
    }
    var failure;
    s, failure := RunTools(c, input, env, s, said);
    end := if failure.Some? then Some(RunFailed(failure.value)) else None;
  }

  /** One iteration; `end` is the terminal event to report, if it is the last. */
  method Round(c: Config, input: seq<Message>, env: Env, before: State, iteration: nat)
      returns (s: State, end: Option<Event>)
    requires iteration > 0 && GoesOn(c, input, before, iteration - 1)
    ensures end.Some? ==> Terminal(end.value) && Over(c, input, s, iteration)
    ensures end.None? ==> GoesOn(c, input, s, iteration)
  {
    if before.Aborted() {
      OneMoreRound(c, before, before, iteration - 1);
      return before, Some(RunFailed("ABORTED"));
    }
    EmitKeeps(c, input, env, before, IterationStarted(iteration));
    var answer;
    s, answer := AskModel(c, input, env, Emit(env, before, IterationStarted(iteration)));
    if answer.Err? {
      end := Some(RunFailed(answer.error));
    } else {
      s, end := Respond(c, input, env, s, answer.value, iteration);
    }
    OneMoreRound(c, before, s, iteration - 1);
  }

  lemma InitialIsSettled(c: Config, input: seq<Message>)
    requires Runnable(c)
    ensures Settled(c, input, Initial(input))
  {
    assert Initial(input).messages[|input|..] == [];
  }

  lemma RunStarts(c: Config, input: seq<Message>, env: Env)
    requires Runnable(c)
    ensures GoesOn(c, input, Emit(env, Initial(input), RunStarted), 0)
  {
    InitialIsSettled(c, input);
    EmitKeeps(c, input, env, Initial(input), RunStarted);
  }

  /** The loop; `end` is the terminal event to report unless an abort overrides it. */
  method Iterate(c: Config, input: seq<Message>, env: Env) returns (s: State, end: Event)
    requires Runnable(c)
    ensures Going(c, input, s) && Terminal(end)
    ensures Show(c, s).iterations <= c.maxIterations && |s.requests| <= c.maxIterations * c.providers
  {
    RunStarts(c, input, env);
    s := Emit(env, Initial(input), RunStarted);
    for iteration := 1 to c.maxIterations + 1
      invariant GoesOn(c, input, s, iteration - 1)
    {
      var last;
      s, last := Round(c, input, env, s, iteration);
      if last.Some? {
        MoreRounds(c, s, iteration);
        return s, last.value;
      }
    }
    MoreRounds(c, s, c.maxIterations);
    end := RunFailed("ITERATION_BUDGET_EXCEEDED");
  }

  /** A fully consumed run: one terminal event, at the end; within the iteration and tool budgets; every model request
      made when no call was open, over a transcript of all calls dispatched so far, each answered once and in order with
      what was returned for it; fallback that goes forward only, and none at all once a proposal tool has completed:
      from then on every request goes to the provider that asked for the proposal. */
  method Execute(c: Config, input: seq<Message>, env: Env) returns (s: State)
    requires Runnable(c)
    ensures s.events != [] && Terminal(s.events[|s.events| - 1]) && Show(c, s).terminals == 1
    ensures Show(c, s).iterations <= c.maxIterations && |s.requests| <= c.maxIterations * c.providers
    ensures |s.dispatched| <= c.maxToolCalls
    ensures RequestsOk(c, input, s.Done(), s.requests) && TraceOk(Show(c, s), s.requests, s.Done())
    ensures Forward(s.requests) && Pinned(c, s.events)
    ensures BatchesOk(c, s.batches) && s.dispatched <= CallsIn(s.batches)
  {
    var end;
    s, end := Iterate(c, input, env);
    if !end.RunCompleted? && s.Aborted() {
      end := if s.timedOut then RunFailed("DEADLINE_EXCEEDED") else RunCancelled;
    }
    EndKeeps(c, input, s, end);
    s := s.(events := s.events + [end]);
  }

  lemma EndKeeps(c: Config, input: seq<Message>, s: State, end: Event)
    requires Going(c, input, s) && Terminal(end)
    ensures var s' := s.(events := s.events + [end]);
      && s'.events != [] && s'.events[|s'.events| - 1] == end && Show(c, s').terminals == 1
      && Show(c, s').iterations == Show(c, s).iterations
      && TraceOk(Show(c, s'), s.requests, s.Done()) && Pinned(c, s'.events)
  {
    ReadNext(c, s.events, end);
    PinnedToIsPinned(c, s.events + [end], s.activeProvider);
  }
}
