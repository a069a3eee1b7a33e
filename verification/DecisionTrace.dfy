/** Joining the decision trace with the run (app/agents/decision_trace.py). */
module DecisionTrace {
  import opened Contracts
  import opened Machine
  import opened Effects
  import opened LlmPlanner
  import LlmRuns
  import Safety

  type Key = (string, string)

  function KeyOf(call: ToolCall): Key {
    (call.stepId, call.toolName)
  }

  function Keys(calls: seq<ToolCall>): seq<Key> {
    seq(|calls|, k requires 0 <= k < |calls| => KeyOf(calls[k]))
  }

  function Occurs(keys: seq<Key>, key: Key): nat {
    if keys == [] then 0 else Occurs(keys[..|keys| - 1], key) + (if keys[|keys| - 1] == key then 1 else 0)
  }

  /** Ids of the calls of one step and tool, in order. */
  function IdsFor(calls: seq<ToolCall>, key: Key): seq<string> {
    if calls == [] then []
    else IdsFor(calls[..|calls| - 1], key)
         + (if KeyOf(calls[|calls| - 1]) == key then [calls[|calls| - 1].callId] else [])
  }

  function EntryKey(entry: TraceEntry): Key
    requires LlmRuns.IsCallEntry(entry)
  {
    (entry.stepId.value, entry.selectedTool.value)
  }

  /** The n-th accepted decision for a step and tool takes the n-th call of that step and tool. */
  function Correlated(entries: seq<TraceEntry>, calls: seq<ToolCall>, k: nat): TraceEntry
    requires k < |entries|
  {
    var entry := entries[k];
    if !LlmRuns.IsCallEntry(entry) then entry
    else
      var available := IdsFor(calls, EntryKey(entry));
      var index := Occurs(LlmRuns.CallKeys(entries[..k]), EntryKey(entry));
      if index < |available| then entry.(callId := Some(available[index])) else entry
  }

  function Available(pending: map<Key, seq<string>>, key: Key): seq<string> {
    if key in pending then pending[key] else []
  }

  /** The first loop: group the call ids by step and tool. */
  method PendingCalls(calls: seq<ToolCall>) returns (pending: map<Key, seq<string>>)
    ensures forall key :: Available(pending, key) == IdsFor(calls, key)
  {
    pending := map[];
    for n := 0 to |calls|
      invariant forall key :: Available(pending, key) == IdsFor(calls[..n], key)
    {
      assert calls[..n + 1][..n] == calls[..n];
      var key := KeyOf(calls[n]);
      pending := pending[key := Available(pending, key) + [calls[n].callId]];
    }
    assert calls[..|calls|] == calls;
  }

  function Consumed(consumed: map<Key, nat>, key: Key): nat {
    if key in consumed then consumed[key] else 0
  }

  /** How far each step and tool has been consumed by the first `n` decisions. */
  ghost predicate ConsumedUpTo(consumed: map<Key, nat>, entries: seq<TraceEntry>, n: nat, calls: seq<ToolCall>)
    requires n <= |entries|
  {
    forall key :: Consumed(consumed, key) == Least(Occurs(LlmRuns.CallKeys(entries[..n]), key), |IdsFor(calls, key)|)
  }

  lemma OccursNext(entries: seq<TraceEntry>, n: nat, key: Key)
    requires n < |entries|
    ensures Occurs(LlmRuns.CallKeys(entries[..n + 1]), key)
            == Occurs(LlmRuns.CallKeys(entries[..n]), key)
               + if LlmRuns.IsCallEntry(entries[n]) && EntryKey(entries[n]) == key then 1 else 0
  {
    var keys := LlmRuns.CallKeys(entries[..n]);
    assert entries[..n + 1][..n] == entries[..n];
    if LlmRuns.IsCallEntry(entries[n]) {
      assert (keys + [EntryKey(entries[n])])[..|keys|] == keys;
    } else {
      assert LlmRuns.CallKeys(entries[..n + 1]) == keys;
    }
  }

  lemma ConsumedNext(consumed: map<Key, nat>, after: map<Key, nat>, entries: seq<TraceEntry>, n: nat,
                     calls: seq<ToolCall>)
    requires n < |entries| && ConsumedUpTo(consumed, entries, n, calls)
    requires if LlmRuns.IsCallEntry(entries[n])
                && Consumed(consumed, EntryKey(entries[n])) < |IdsFor(calls, EntryKey(entries[n]))|
             then after == consumed[EntryKey(entries[n]) := Consumed(consumed, EntryKey(entries[n])) + 1]
             else after == consumed
    ensures ConsumedUpTo(after, entries, n + 1, calls)
  {
    forall key ensures Consumed(after, key)
                       == Least(Occurs(LlmRuns.CallKeys(entries[..n + 1]), key), |IdsFor(calls, key)|)
    {
      OccursNext(entries, n, key);
    }
  }

  lemma NothingConsumed(entries: seq<TraceEntry>, calls: seq<ToolCall>)
    ensures ConsumedUpTo(map[], entries, 0, calls)
  {
  }

  /** The second loop: every accepted decision takes the next unconsumed call of its key. */
  method CorrelateTraceWithRun(entries: seq<TraceEntry>, calls: seq<ToolCall>) returns (correlated: seq<TraceEntry>)
    ensures |correlated| == |entries|
    ensures forall k :: 0 <= k < |entries| ==> correlated[k] == Correlated(entries, calls, k)
  {
    hide LlmRuns.CallKeys, Occurs;
    var pending := PendingCalls(calls);
    var consumed: map<Key, nat> := map[];
    NothingConsumed(entries, calls);
    correlated := [];
    for n := 0 to |entries|
      invariant |correlated| == n
      invariant forall k :: 0 <= k < n ==> correlated[k] == Correlated(entries, calls, k)
      invariant ConsumedUpTo(consumed, entries, n, calls)
    {
      var entry := entries[n];
      ghost var before := consumed;
      if !LlmRuns.IsCallEntry(entry) {
        correlated := correlated + [entry];
      } else {
        var key := EntryKey(entry);
        var available := Available(pending, key);
        var index := if key in consumed then consumed[key] else 0;
        assert index == Consumed(consumed, key);
        if index < |available| {
          consumed := consumed[key := index + 1];
          correlated := correlated + [entry.(callId := Some(available[index]))];
        } else {
          correlated := correlated + [entry];
        }
      }
      ConsumedNext(before, consumed, entries, n, calls);
    }
  }

  function Least(a: nat, b: nat): nat {
    if a < b then a else b
  }

  // ----- what an attachment means ----------------------------------------------------------

  lemma {:induction false} OccursPrefix(keys: seq<Key>, n: nat, key: Key)
    requires n <= |keys|
    ensures Occurs(keys[..n], key) <= Occurs(keys, key)
  {
    if n < |keys| {
      OccursPrefix(keys[..|keys| - 1], n, key);
      assert keys[..|keys| - 1][..n] == keys[..n];
    } else {
      assert keys[..n] == keys;
    }
  }

  lemma {:induction false} IdsForIsCount(calls: seq<ToolCall>, key: Key)
    ensures |IdsFor(calls, key)| == Occurs(Keys(calls), key)
  {
    if calls != [] {
      var before := calls[..|calls| - 1];
      IdsForIsCount(before, key);
      assert Keys(calls)[..|calls| - 1] == Keys(before);
    }
  }

  /** The call behind the `index`-th id of a step and tool. */
  lemma {:induction false} CallBehind(calls: seq<ToolCall>, key: Key, index: nat) returns (p: nat)
    requires index < |IdsFor(calls, key)|
    ensures p < |calls| && KeyOf(calls[p]) == key && IdsFor(calls, key)[index] == calls[p].callId
    ensures Occurs(Keys(calls[..p]), key) == index
  {
    var last := |calls| - 1;
    var before := calls[..last];
    if index < |IdsFor(before, key)| {
      p := CallBehind(before, key, index);
      assert before[..p] == calls[..p];
    } else {
      IdsForIsCount(before, key);
      p := last;
    }
  }

  lemma {:induction false} CallKeysPrefix(entries: seq<TraceEntry>, n: nat)
    requires n <= |entries|
    ensures var keys := LlmRuns.CallKeys(entries);
            var prefix := LlmRuns.CallKeys(entries[..n]);
            |prefix| <= |keys| && keys[..|prefix|] == prefix
    ensures n < |entries| && LlmRuns.IsCallEntry(entries[n]) ==>
              var keys := LlmRuns.CallKeys(entries);
              var prefix := LlmRuns.CallKeys(entries[..n]);
              |prefix| < |keys| && keys[|prefix|] == EntryKey(entries[n])
  {
    if n < |entries| {
      var before := entries[..|entries| - 1];
      CallKeysPrefix(before, n);
      assert before[..n] == entries[..n];
      if n < |before| { assert before[n] == entries[n]; }
    } else {
      assert entries[..n] == entries;
    }
  }

  /** A later decision for the same step and tool has a larger rank. */
  lemma RanksIncrease(entries: seq<TraceEntry>, j: nat, k: nat)
    requires j < k < |entries| && LlmRuns.IsCallEntry(entries[j])
    ensures Occurs(LlmRuns.CallKeys(entries[..j]), EntryKey(entries[j]))
            < Occurs(LlmRuns.CallKeys(entries[..k]), EntryKey(entries[j]))
  {
    var key := EntryKey(entries[j]);
    var upTo := entries[..k];
    assert upTo[..j] == entries[..j] && upTo[j] == entries[j];
    CallKeysPrefix(upTo, j);
    var keys := LlmRuns.CallKeys(upTo);
    var m := |LlmRuns.CallKeys(entries[..j])|;
    assert keys[..m + 1][..m] == LlmRuns.CallKeys(entries[..j]);
    OccursPrefix(keys, m + 1, key);
  }

  /** For every trace that carries no call id yet and every run with distinct call ids: no
      call is attached twice; an attached call has the decision's step and tool; and along
      one step and tool later decisions get later calls. */
  lemma CorrelationIsSound(entries: seq<TraceEntry>, calls: seq<ToolCall>, j: nat, k: nat) returns (p: nat, q: nat)
    requires forall a, b :: 0 <= a < b < |calls| ==> calls[a].callId != calls[b].callId
    requires forall n :: 0 <= n < |entries| ==> entries[n].callId.None?
    requires j < k < |entries|
    requires Correlated(entries, calls, j).callId.Some? && Correlated(entries, calls, k).callId.Some?
    ensures p < |calls| && q < |calls|
    ensures Correlated(entries, calls, j).callId == Some(calls[p].callId) && KeyOf(calls[p]) == EntryKey(entries[j])
    ensures Correlated(entries, calls, k).callId == Some(calls[q].callId) && KeyOf(calls[q]) == EntryKey(entries[k])
    ensures Correlated(entries, calls, j).callId != Correlated(entries, calls, k).callId
    ensures EntryKey(entries[j]) == EntryKey(entries[k]) ==> p < q
  {
    p := CallBehind(calls, EntryKey(entries[j]), Occurs(LlmRuns.CallKeys(entries[..j]), EntryKey(entries[j])));
    q := CallBehind(calls, EntryKey(entries[k]), Occurs(LlmRuns.CallKeys(entries[..k]), EntryKey(entries[k])));
    RanksIncrease(entries, j, k);
    if q < p {
      OccursPrefix(Keys(calls[..p]), q, EntryKey(entries[k]));
      assert Keys(calls[..p])[..q] == Keys(calls[..q]);
    }
  }

  // ----- when the attached call is the dispatched one ------------------------------------------

  lemma {:induction false} IdsForAt(calls: seq<ToolCall>, m: nat)
    requires m < |calls|
    ensures var key := KeyOf(calls[m]);
            var index := Occurs(Keys(calls[..m]), key);
            index < |IdsFor(calls, key)| && IdsFor(calls, key)[index] == calls[m].callId
  {
    var last := |calls| - 1;
    var before := calls[..last];
    var key := KeyOf(calls[m]);
    if m < last {
      assert before[..m] == calls[..m] && before[m] == calls[m];
      IdsForAt(before, m);
    } else {
      IdsForIsCount(before, key);
    }
  }

  /** The attempt numbers of the created calls, as the trajectory recorded them. */
  function AttemptNumbers(events: seq<Event>): seq<nat> {
    if events == [] then []
    else AttemptNumbers(events[..|events| - 1])
         + (var kind := events[|events| - 1].kind; if kind.CallCreated? then [kind.attempt] else [])
  }

  /** Step and tool of the first attempts, in order: one per dispatched decision. */
  function FirstKeys(calls: seq<ToolCall>, numbers: seq<nat>): seq<Key>
    requires |numbers| == |calls|
  {
    if calls == [] then []
    else FirstKeys(calls[..|calls| - 1], numbers[..|calls| - 1])
         + (if numbers[|calls| - 1] == 1 then [KeyOf(calls[|calls| - 1])] else [])
  }

  /** Repeated attempts of one step and tool. */
  function Surplus(calls: seq<ToolCall>, numbers: seq<nat>, key: Key): nat
    requires |numbers| == |calls|
  {
    if calls == [] then 0
    else Surplus(calls[..|calls| - 1], numbers[..|calls| - 1], key)
         + (if numbers[|calls| - 1] != 1 && KeyOf(calls[|calls| - 1]) == key then 1 else 0)
  }

  /** Where the call dispatched by the m-th accepted decision stands; the length when it
      dispatched none. */
  function DispatchedAt(calls: seq<ToolCall>, numbers: seq<nat>, m: nat): (p: nat)
    requires |numbers| == |calls|
    ensures p <= |calls|
  {
    if calls == [] then 0
    else
      var last := |calls| - 1;
      var p := DispatchedAt(calls[..last], numbers[..last], m);
      if p < last then p
      else if numbers[last] == 1 && |FirstKeys(calls[..last], numbers[..last])| == m then last
      else |calls|
  }

  lemma {:induction false} SurplusSplits(calls: seq<ToolCall>, numbers: seq<nat>, key: Key)
    requires |numbers| == |calls|
    ensures Occurs(Keys(calls), key) == Occurs(FirstKeys(calls, numbers), key) + Surplus(calls, numbers, key)
    ensures Surplus(calls, numbers, key) == 0
            <==> forall j :: 0 <= j < |calls| && KeyOf(calls[j]) == key ==> numbers[j] == 1
  {
    if calls != [] {
      var last := |calls| - 1;
      SurplusSplits(calls[..last], numbers[..last], key);
      assert Keys(calls)[..last] == Keys(calls[..last]);
      assert Keys(calls)[last] == KeyOf(calls[last]);
      var firsts := FirstKeys(calls[..last], numbers[..last]);
      assert (firsts + [KeyOf(calls[last])])[..|firsts|] == firsts;
      assert firsts + [] == firsts;
    }
  }

  lemma {:induction false} DispatchedIsFirst(calls: seq<ToolCall>, numbers: seq<nat>, m: nat)
    requires |numbers| == |calls|
    ensures var p := DispatchedAt(calls, numbers, m);
            var firsts := FirstKeys(calls, numbers);
            && (p < |calls| <==> m < |firsts|)
            && (p < |calls| ==> numbers[p] == 1 && firsts[..m] == FirstKeys(calls[..p], numbers[..p])
                                && KeyOf(calls[p]) == firsts[m])
  {
    if calls != [] {
      var last := |calls| - 1;
      DispatchedIsFirst(calls[..last], numbers[..last], m);
      var p := DispatchedAt(calls[..last], numbers[..last], m);
      if p < last {
        assert calls[..last][..p] == calls[..p] && numbers[..last][..p] == numbers[..p];
      }
    }
  }

  /** Accepted decisions and first attempts correspond; a last decision may have been blocked. */
  ghost predicate Dispatched(entries: seq<TraceEntry>, calls: seq<ToolCall>, numbers: seq<nat>) {
    && |numbers| == |calls|
    && var keys := LlmRuns.CallKeys(entries);
    var firsts := FirstKeys(calls, numbers);
    keys == firsts || (|keys| == |firsts| + 1 && keys[..|firsts|] == firsts)
  }

  /** The decision dispatched call `p`: the pairing finds it iff no surplus call of its key stands before. */
  lemma AttachedToDispatched(entries: seq<TraceEntry>, calls: seq<ToolCall>, numbers: seq<nat>, k: nat, p: nat)
    requires Dispatched(entries, calls, numbers) && k < |entries| && LlmRuns.IsCallEntry(entries[k])
    requires entries[k].callId.None?
    requires forall a, b :: 0 <= a < b < |calls| ==> calls[a].callId != calls[b].callId
    requires p == DispatchedAt(calls, numbers, |LlmRuns.CallKeys(entries[..k])|) < |calls|
    ensures Correlated(entries, calls, k).callId == Some(calls[p].callId)
            <==> Surplus(calls[..p], numbers[..p], EntryKey(entries[k])) == 0
  {
    hide LlmRuns.CallKeys, FirstKeys, Surplus, DispatchedAt, Occurs, IdsFor, Keys;
    var prefix, key := LlmRuns.CallKeys(entries[..k]), EntryKey(entries[k]);
    CallKeysPrefix(entries, k);
    DispatchedIsFirst(calls, numbers, |prefix|);
    assert prefix == LlmRuns.CallKeys(entries)[..|prefix|] == FirstKeys(calls, numbers)[..|prefix|];
    assert KeyOf(calls[p]) == key;
    SurplusSplits(calls[..p], numbers[..p], key);
    IdsForAt(calls, p);
    var q := CallBehind(calls, key, Occurs(prefix, key));
  }

  /** The decision was blocked: the pairing finds nothing iff there is no surplus call of its key. */
  lemma UnattachedIfBlocked(entries: seq<TraceEntry>, calls: seq<ToolCall>, numbers: seq<nat>, k: nat)
    requires Dispatched(entries, calls, numbers) && k < |entries| && LlmRuns.IsCallEntry(entries[k])
    requires entries[k].callId.None?
    requires DispatchedAt(calls, numbers, |LlmRuns.CallKeys(entries[..k])|) == |calls|
    ensures Correlated(entries, calls, k).callId == None <==> Surplus(calls, numbers, EntryKey(entries[k])) == 0
  {
    hide LlmRuns.CallKeys, FirstKeys, Surplus, DispatchedAt, Occurs, IdsFor, Keys;
    var prefix, key := LlmRuns.CallKeys(entries[..k]), EntryKey(entries[k]);
    CallKeysPrefix(entries, k);
    DispatchedIsFirst(calls, numbers, |prefix|);
    assert prefix == FirstKeys(calls, numbers);
    SurplusSplits(calls, numbers, key);
    IdsForIsCount(calls, key);
  }

  lemma AttachedIffSurplusFree(entries: seq<TraceEntry>, calls: seq<ToolCall>, numbers: seq<nat>, k: nat)
    requires Dispatched(entries, calls, numbers)
    requires k < |entries| && LlmRuns.IsCallEntry(entries[k]) && entries[k].callId.None?
    requires forall a, b :: 0 <= a < b < |calls| ==> calls[a].callId != calls[b].callId
    ensures var p := DispatchedAt(calls, numbers, |LlmRuns.CallKeys(entries[..k])|);
            Correlated(entries, calls, k).callId == (if p < |calls| then Some(calls[p].callId) else None)
            <==> Surplus(calls[..p], numbers[..p], EntryKey(entries[k])) == 0
  {
    hide LlmRuns.CallKeys, FirstKeys, Surplus, DispatchedAt, Correlated;
    var p := DispatchedAt(calls, numbers, |LlmRuns.CallKeys(entries[..k])|);
    if p < |calls| {
      AttachedToDispatched(entries, calls, numbers, k, p);
    } else {
      UnattachedIfBlocked(entries, calls, numbers, k);
      assert calls[..p] == calls && numbers[..p] == numbers;
    }
  }

  lemma AttachedIffNotRetried(entries: seq<TraceEntry>, calls: seq<ToolCall>, numbers: seq<nat>, k: nat)
    requires Dispatched(entries, calls, numbers)
    requires k < |entries| && LlmRuns.IsCallEntry(entries[k]) && entries[k].callId.None?
    requires forall a, b :: 0 <= a < b < |calls| ==> calls[a].callId != calls[b].callId
    ensures var p := DispatchedAt(calls, numbers, |LlmRuns.CallKeys(entries[..k])|);
            Correlated(entries, calls, k).callId == (if p < |calls| then Some(calls[p].callId) else None)
            <==> forall j :: 0 <= j < p && KeyOf(calls[j]) == EntryKey(entries[k]) ==> numbers[j] == 1
  {
    var p := DispatchedAt(calls, numbers, |LlmRuns.CallKeys(entries[..k])|);
    AttachedIffSurplusFree(entries, calls, numbers, k);
    SurplusSplits(calls[..p], numbers[..p], EntryKey(entries[k]));
    assert forall j :: 0 <= j < p ==> calls[..p][j] == calls[j] && numbers[..p][j] == numbers[j];
  }

  // ----- a retry shifts the pairing ------------------------------------------------------------

  function SampleCall(callId: string): ToolCall {
    ToolCall(callId, "INC-000001", "STEP-000005", SEARCH_CTI, map[], "why", CallStatus.Failed, 0, None, None)
  }

  function SampleEntry(decisionId: string, requestSequence: nat): TraceEntry {
    TraceEntry(decisionId, requestSequence, Some("STEP-000005"), CallTool, Some(SEARCH_CTI), Accepted, 0, None, None)
  }

  lemma SampleDispatched(a: ToolCall, b: ToolCall, c: ToolCall, d: TraceEntry, e: TraceEntry)
    requires KeyOf(a) == KeyOf(b) == KeyOf(c) && LlmRuns.IsCallEntry(d) && LlmRuns.IsCallEntry(e)
    requires EntryKey(d) == EntryKey(e) == KeyOf(a)
    ensures LlmRuns.CallKeys([d, e][..1]) == [KeyOf(a)] && Dispatched([d, e], [a, b, c], [1, 2, 1])
    ensures DispatchedAt([a, b, c], [1, 2, 1], 1) == 2
  {
    var key := KeyOf(a);
    assert [a, b, c][..2] == [a, b] && [a, b][..1] == [a] && [1, 2, 1][..2] == [1, 2] && [1, 2][..1] == [1];
    assert [d, e][..1] == [d] && [d][..0] == [] && LlmRuns.CallKeys([d]) == [key];
    assert LlmRuns.CallKeys([d, e]) == [key, key];
    assert [a][..0] == [] && [1][..0] == [] && FirstKeys([a], [1]) == [key];
    assert FirstKeys([a, b], [1, 2]) == [key] + [] == [key] && FirstKeys([a, b, c], [1, 2, 1]) == [key, key];
    assert FirstKeys([], []) == [] && DispatchedAt([], [], 1) == 0;
    assert DispatchedAt([a], [1], 1) == 1 && DispatchedAt([a, b], [1, 2], 1) == 2;
  }

  lemma SampleIds(a: ToolCall, b: ToolCall, c: ToolCall)
    requires KeyOf(a) == KeyOf(b) == KeyOf(c)
    ensures IdsFor([a, b, c], KeyOf(a)) == [a.callId, b.callId, c.callId] && Occurs([KeyOf(a)], KeyOf(a)) == 1
  {
    var key := KeyOf(a);
    assert [a, b, c][..2] == [a, b] && [a, b][..1] == [a] && [a][..0] == [] && [key][..0] == [];
    assert IdsFor([], key) == [] && IdsFor([a], key) == [] + [a.callId] == [a.callId];
    assert IdsFor([a, b], key) == [a.callId, b.callId];
  }

  /** Two decisions of one step and tool, the first one retried: its retry is attached to the second decision,
      whose own call is attached to nothing. */
  lemma RetryShiftsThePairing()
    ensures var calls := [SampleCall("TC-000001"), SampleCall("TC-000002"), SampleCall("TC-000003")];
            var entries, numbers := [SampleEntry("AGD-000001", 1), SampleEntry("AGD-000002", 2)], [1, 2, 1];
            && Dispatched(entries, calls, numbers)
            && DispatchedAt(calls, numbers, |LlmRuns.CallKeys(entries[..1])|) == 2
            && Correlated(entries, calls, 1).callId == Some("TC-000002")
  {
    hide LlmRuns.CallKeys, Dispatched, DispatchedAt, IdsFor, Occurs;
    var a, b, c := SampleCall("TC-000001"), SampleCall("TC-000002"), SampleCall("TC-000003");
    SampleDispatched(a, b, c, SampleEntry("AGD-000001", 1), SampleEntry("AGD-000002", 2));
    SampleIds(a, b, c);
  }

  // ----- every run keeps decisions and first attempts in correspondence ---------------------------

  ghost predicate Aligned<C, E>(c: Config<LlmState<C>, E>) {
    && WellFormed(c) && LlmRuns.NoCallIds(c.planner.entries)
    && var keys := LlmRuns.CallKeys(c.planner.entries);
    var numbers := AttemptNumbers(c.st.events);
    && |numbers| == |c.st.calls|
    && var firsts := FirstKeys(c.st.calls, numbers);
    (match c.control
     case Calling(i, request, attempts) =>
       keys == if attempts == 0 then firsts + [(c.st.steps[i].stepId, request.toolName)] else firsts
     case Closing(_, outcome) =>
       if outcome.StepStopped? then Dispatched(c.planner.entries, c.st.calls, numbers) else keys == firsts
     case Done => Dispatched(c.planner.entries, c.st.calls, numbers)
     case _ => keys == firsts)
  }

  lemma {:induction false} NumbersOfSuffix(before: seq<Event>, after: seq<Event>)
    requires before <= after
    ensures AttemptNumbers(before) <= AttemptNumbers(after)
    ensures (forall k :: |before| <= k < |after| ==> !after[k].kind.CallCreated?) ==>
              AttemptNumbers(before) == AttemptNumbers(after)
  {
    if before == after {
    } else {
      var shorter := after[..|after| - 1];
      assert before <= shorter;
      NumbersOfSuffix(before, shorter);
    }
  }

  /** An attempt creates one call, numbered by the attempts spent before it. */
  lemma AttemptNumbered<P, E>(w: World<P, E>, c: Config<P, E>)
    requires WellFormed(c) && c.control.Calling? && Blocked(w, c.st, c.control.i).None?
    ensures AttemptNumbers(Next(w, c).st.events) == AttemptNumbers(c.st.events) + [c.control.attempts + 1]
  {
    var begun, executor, reply := AttemptUnfolds(w, c);
    BeginNumbered(w.clock, c.st, c.st.steps[c.control.i].stepId, c.control.request, c.control.attempts);
    ReplyCreatesNothing(w, c, begun, executor, reply);
    NumbersOfSuffix(begun.events, Next(w, c).st.events);
  }

  lemma BeginNumbered(clock: nat -> int, st: RunState, stepId: string, request: PlannerDecision, attempts: nat)
    requires request.Call?
    ensures AttemptNumbers(BeginAttempt(clock, st, stepId, request, attempts).events)
            == AttemptNumbers(st.events) + [attempts + 1]
  {
    var events := BeginAttempt(clock, st, stepId, request, attempts).events;
    var k := |st.events|;
    assert events[..k + 1][..k] == st.events;
    assert AttemptNumbers(events[..k + 1]) == AttemptNumbers(st.events) + [attempts + 1];
    NumbersOfSuffix(events[..k + 1], events);
  }

  lemma ReplyCreatesNothing<P, E>(w: World<P, E>, c: Config<P, E>, begun: RunState, executor: E, reply: ExecutorReply)
    requires c.control.Calling? && c.control.request.Call?
    requires begun.calls != [] && c.control.i < |begun.steps| && begun.hasPlan
    ensures var events := Attempted(w, c, begun, executor, reply).st.events;
            begun.events <= events && forall k :: |begun.events| <= k < |events| ==> !events[k].kind.CallCreated?
  {
  }

  /** Only attempts create calls. */
  lemma OthersCreateNothing<P, E>(w: World<P, E>, c: Config<P, E>)
    requires WellFormed(c) && !c.control.Done?
    requires c.control.Calling? ==> Blocked(w, c.st, c.control.i).Some?
    ensures AttemptNumbers(Next(w, c).st.events) == AttemptNumbers(c.st.events)
  {
    var events := Next(w, c).st.events;
    assert c.st.events <= events && forall k :: |c.st.events| <= k < |events| ==> !events[k].kind.CallCreated?;
    NumbersOfSuffix(c.st.events, events);
  }

  lemma AttemptAligned<C(!new), E>(w: World<LlmState<C>, E>, c: Config<LlmState<C>, E>, n: Config<LlmState<C>, E>,
                                   begun: ToolCall, reply: ExecutorReply)
    requires Aligned(c) && IsAttempt(w, c, n, begun, reply)
    requires AttemptNumbers(n.st.events) == AttemptNumbers(c.st.events) + [c.control.attempts + 1]
    ensures Aligned(n)
  {
    var last := |c.st.calls|;
    var numbers := AttemptNumbers(n.st.events);
    assert numbers[..last] == AttemptNumbers(c.st.events);
    assert FirstKeys(n.st.calls, numbers)
        == FirstKeys(c.st.calls, AttemptNumbers(c.st.events))
          + if c.control.attempts == 0 then [KeyOf(n.st.calls[last])] else [];
  }

  lemma NextAligned<C(!new), E>(w: World<LlmState<C>, E>, settings: LlmSettings<C>, c: Config<LlmState<C>, E>)
    requires Aligned(c) && !c.control.Done? && !c.control.Start?
    requires LlmRuns.UsesLlmPlanner(w, settings) && SchemasKeepCaseId(settings)
    ensures Aligned(Next(w, c))
  {
    if c.control.Calling? && Blocked(w, c.st, c.control.i).None? {
      var begun, reply := AttemptEffect(w, c);
      AttemptNumbered(w, c);
      AttemptAligned(w, c, Next(w, c), begun, reply);
    } else {
      OthersCreateNothing(w, c);
      OtherStepsKeepCalls(w, c);
      if c.control.Deciding? {
        var x := Context(w, c.st, c.control.i);
        assert w.decide(c.planner, x) == LlmDecide(settings, c.planner, x);
        LlmRuns.DecideFacts(settings, c.planner, x);
      }
    }
  }

  lemma {:induction false} RunAligned<C(!new), E>(w: World<LlmState<C>, E>, settings: LlmSettings<C>,
                                                  c: Config<LlmState<C>, E>)
    requires Aligned(c) && !c.control.Start?
    requires LlmRuns.UsesLlmPlanner(w, settings) && SchemasKeepCaseId(settings)
    ensures Aligned(RunToEnd(w, c))
    decreases !c.control.Done?, Measure(w, c)
  {
    if !c.control.Done? {
      NextDecreases(w, c);
      NextAligned(w, settings, c);
      RunAligned(w, settings, Next(w, c));
    }
  }

  lemma RunDispatches<C(!new), E>(w: World<LlmState<C>, E>, settings: LlmSettings<C>, planner: LlmState<C>,
                                  executor: E, incidentId: string, ticks: nat, nextCall: nat)
    requires LlmRuns.UsesLlmPlanner(w, settings) && SchemasKeepCaseId(settings) && planner.entries == []
    ensures var end := RunToEnd(w, Initial(w, planner, executor, incidentId, ticks, nextCall));
            && Dispatched(end.planner.entries, end.st.calls, AttemptNumbers(end.st.events))
            && LlmRuns.NoCallIds(end.planner.entries)
  {
    var c := Initial(w, planner, executor, incidentId, ticks, nextCall);
    var c1 := Next(w, c);
    assert w.createPlan(planner, w.alert) == LlmPlan(settings, planner, w.alert);
    NumbersOfSuffix([], c1.st.events);
    RunAligned(w, settings, c1);
    assert RunToEnd(w, c) == RunToEnd(w, c1);
  }

  /** The n-th-decision-to-n-th-call pairing attaches to an accepted decision exactly the call
      it dispatched (none, when the budget blocked it) if and only if no call of the same step
      and tool was retried before that point of the run. */
  lemma CorrelationIsExactIffNotRetried<C(!new), E(!new)>(w: World<LlmState<C>, E>, settings: LlmSettings<C>,
                                                          planner: LlmState<C>, executor: E, incidentId: string,
                                                          ticks: nat, nextCall: nat, k: nat)
    requires LlmRuns.UsesLlmPlanner(w, settings) && SchemasKeepCaseId(settings) && planner.entries == []
    requires var entries := RunToEnd(w, Initial(w, planner, executor, incidentId, ticks, nextCall)).planner.entries;
             k < |entries| && LlmRuns.IsCallEntry(entries[k])
    ensures var end := RunToEnd(w, Initial(w, planner, executor, incidentId, ticks, nextCall));
            var entries, calls, numbers := end.planner.entries, end.st.calls, AttemptNumbers(end.st.events);
            && |numbers| == |calls|
            && var p := DispatchedAt(calls, numbers, |LlmRuns.CallKeys(entries[..k])|);
            Correlated(entries, calls, k).callId == (if p < |calls| then Some(calls[p].callId) else None)
            <==> forall j :: 0 <= j < p && KeyOf(calls[j]) == EntryKey(entries[k]) ==> numbers[j] == 1
  {
    RunDispatches(w, settings, planner, executor, incidentId, ticks, nextCall);
    Safety.CallsAndResultsCorrespond(w, planner, executor, incidentId, ticks, nextCall);
    var end := RunToEnd(w, Initial(w, planner, executor, incidentId, ticks, nextCall));
    AttachedIffNotRetried(end.planner.entries, end.st.calls, AttemptNumbers(end.st.events), k);
  }
}
