/** How far the agent loop lets one call be repeated. */
module RepeatedCalls {
  import opened Prelude
  import opened AgentTrace
  import opened AgentRuntime

  /** Batches that all repeat one harmless call under ids of their own pass, however many copies they hold. */
  lemma EveryBatchOfCopiesIsAccepted(c: Config, repeated: map<string, nat>, calls: seq<Call>, call: Call)
    requires Count(repeated, call.signature) < c.maxRepeated
    requires !Blank(call.name) && c.classify(call.name) in {ReadEffect, ProposalEffect} && !c.denied(call.name)
    requires forall k :: 0 <= k < |calls| ==> calls[k] == call.(id := calls[k].id) && !Blank(calls[k].id)
    requires forall j, k :: 0 <= j < k < |calls| ==> calls[j].id != calls[k].id
    ensures BatchOk(c, repeated, calls) && Occurrences(calls, call.signature) == |calls|
  {
    CopiesOccur(calls, call.signature);
  }

  lemma {:induction false} CopiesOccur(calls: seq<Call>, signature: string)
    requires forall k :: 0 <= k < |calls| ==> calls[k].signature == signature
    ensures Occurrences(calls, signature) == |calls|
    decreases |calls|
  {
    if calls != [] {
      CopiesOccur(calls[..|calls| - 1], signature);
    }
  }

  function Id(n: nat): string {
    seq(n + 1, i => 'x')
  }

  function Copies(call: Call, n: nat): seq<Call> {
    seq(n, k requires 0 <= k < n => call.(id := Id(k)))
  }

  /** So for every limit, and every count below it, the loop admits a batch with any number of repetitions that the tool
      budget has room for: the limit does not bound the total. */
  lemma OneBatchCanExceedTheLimit(c: Config, s: State, call: Call, n: nat)
    requires Count(s.repeated, call.signature) < c.maxRepeated && c.hasTools && s.toolCount + n <= c.maxToolCalls
    requires !Blank(call.name) && c.classify(call.name) in {ReadEffect, ProposalEffect} && !c.denied(call.name)
    ensures BatchAdmitted(c, s, Copies(call, n)) && Occurrences(Copies(call, n), call.signature) == n
  {
    var calls := Copies(call, n);
    forall k | 0 <= k < n
      ensures !Blank(calls[k].id) && |calls[k].id| == k + 1
    {
      assert Id(k)[0] == 'x';
    }
    EveryBatchOfCopiesIsAccepted(c, s.repeated, calls, call);
  }

  /** Before any batch that contains it, a signature stayed below the limit. */
  lemma LimitHoldsAcrossBatches(c: Config, batches: seq<Batch>, i: nat, call: Call)
    requires BatchesOk(c, batches) && i < |batches| && call in batches[i].calls
    ensures Occurrences(CallsIn(batches[..i]), call.signature) < c.maxRepeated
  {
    var b := batches[i];
    var k :| 0 <= k < |b.calls| && b.calls[k] == call;
    assert Fault(c, b.repeated, b.calls, k) == None;
    assert Count(b.repeated, call.signature) == Occurrences(CallsIn(batches[..i]), call.signature);
  }

  /** The check the loop leaves out: what the batch adds to the count so far. */
  predicate WithinLimit(c: Config, b: Batch, signature: string) {
    Count(b.repeated, signature) + Occurrences(b.calls, signature) <= c.maxRepeated
  }

  /** Batch `i` is the last to contain the signature. */
  predicate LastWith(batches: seq<Batch>, i: nat, signature: string) {
    && i < |batches| && Occurrences(batches[i].calls, signature) > 0
    && forall j | i < j < |batches| :: Occurrences(batches[j].calls, signature) == 0
  }

  lemma {:induction false} OccurrencesConcat(a: seq<Call>, b: seq<Call>, signature: string)
    ensures Occurrences(a + b, signature) == Occurrences(a, signature) + Occurrences(b, signature)
    decreases |b|
  {
    if b == [] {
      assert a + b == a;
    } else {
      var n := |b| - 1;
      assert (a + b)[..|a + b| - 1] == a + b[..n] && (a + b)[|a + b| - 1] == b[n];
      OccurrencesConcat(a, b[..n], signature);
    }
  }

  lemma BatchesPrefix(c: Config, batches: seq<Batch>, n: nat)
    requires BatchesOk(c, batches) && n <= |batches|
    ensures BatchesOk(c, batches[..n])
  {
    assert forall i :: 0 <= i < n ==> batches[..n][i] == batches[i] && batches[..n][..i] == batches[..i];
  }

  /** The last batch to contain the signature, if there is one, passes that check. */
  ghost predicate LastPasses(c: Config, batches: seq<Batch>, signature: string) {
    forall i: nat :: LastWith(batches, i, signature) ==> WithinLimit(c, batches[i], signature)
  }

  lemma LastPassesNext(c: Config, batches: seq<Batch>, signature: string)
    requires batches != []
    ensures var n := |batches| - 1;
      LastPasses(c, batches, signature)
      <==> if Occurrences(batches[n].calls, signature) > 0 then WithinLimit(c, batches[n], signature)
           else LastPasses(c, batches[..n], signature)
  {
    LastWithNext(batches, signature);
  }

  /** Over a whole accepted run: a signature stays within the limit exactly when the last batch containing it adds no
      more than the count before it left room for. */
  lemma {:induction false} LimitHoldsExactly(c: Config, batches: seq<Batch>, signature: string)
    requires BatchesOk(c, batches)
    ensures Occurrences(CallsIn(batches), signature) <= c.maxRepeated <==> LastPasses(c, batches, signature)
    decreases |batches|
  {
    if batches != [] {
      var n := |batches| - 1;
      BatchesPrefix(c, batches, n);
      LimitHoldsExactly(c, batches[..n], signature);
      TotalNext(c, batches, signature);
      LastPassesNext(c, batches, signature);
    }
  }

  lemma TotalNext(c: Config, batches: seq<Batch>, signature: string)
    requires BatchesOk(c, batches) && batches != []
    ensures var n := |batches| - 1;
      && Count(batches[n].repeated, signature) == Occurrences(CallsIn(batches[..n]), signature)
      && Occurrences(CallsIn(batches), signature)
         == Occurrences(CallsIn(batches[..n]), signature) + Occurrences(batches[n].calls, signature)
  {
    OccurrencesConcat(CallsIn(batches[..|batches| - 1]), batches[|batches| - 1].calls, signature);
  }

  lemma LastWithNext(batches: seq<Batch>, signature: string)
    requires batches != []
    ensures var n := |batches| - 1;
      if Occurrences(batches[n].calls, signature) > 0 then forall i: nat :: LastWith(batches, i, signature) <==> i == n
      else forall i: nat :: LastWith(batches, i, signature) <==> LastWith(batches[..n], i, signature)
  {
    var n := |batches| - 1;
    assert forall i :: 0 <= i < n ==> batches[..n][i] == batches[i];
  }

  /** A dispatcher that never sees a signature twice in one batch never sees it more often than the limit. */
  lemma DistinctBatchesStayWithinTheLimit(c: Config, batches: seq<Batch>, dispatched: seq<Call>, signature: string)
    requires BatchesOk(c, batches) && dispatched <= CallsIn(batches)
    requires forall i :: 0 <= i < |batches| ==> Occurrences(batches[i].calls, signature) <= 1
    ensures Occurrences(dispatched, signature) <= c.maxRepeated
  {
    forall i: nat | LastWith(batches, i, signature)
      ensures WithinLimit(c, batches[i], signature)
    {
      LoneCopyIsWithinLimit(c, batches, i, signature);
    }
    LimitHoldsExactly(c, batches, signature);
    PrefixOccursLess(dispatched, CallsIn(batches), signature);
  }

  lemma LoneCopyIsWithinLimit(c: Config, batches: seq<Batch>, i: nat, signature: string)
    requires BatchesOk(c, batches) && i < |batches| && Occurrences(batches[i].calls, signature) == 1
    ensures WithinLimit(c, batches[i], signature)
  {
    var call := OneOf(batches[i].calls, signature);
    LimitHoldsAcrossBatches(c, batches, i, call);
    assert Count(batches[i].repeated, signature) == Occurrences(CallsIn(batches[..i]), signature);
  }

  lemma PrefixOccursLess(a: seq<Call>, b: seq<Call>, signature: string)
    requires a <= b
    ensures Occurrences(a, signature) <= Occurrences(b, signature)
  {
    OccurrencesConcat(a, b[|a|..], signature);
    assert a + b[|a|..] == b;
  }

  lemma {:induction false} OneOf(calls: seq<Call>, signature: string) returns (call: Call)
    requires Occurrences(calls, signature) > 0
    ensures call in calls && call.signature == signature
    decreases |calls|
  {
    var n := |calls| - 1;
    if calls[n].signature == signature {
      call := calls[n];
    } else {
      call := OneOf(calls[..n], signature);
    }
  }
}
