// The agent runner and the assembly-line orchestrator. The model provider,
// the database and the JSON engine are inputs: a model call is a function
// from the conversation so far to its reply, and an agent run as seen by the
// orchestrator is a function from the agent id and the user message to its
// output.
module Orchestrator {
  import opened Wrappers
  import opened Json
  import KM = KeyManager
  import Config
  import TE = ToolExecutor

  // ---------------------------------------------------------------------
  // Retry over the key pool

  /** One attempt of an operation: its value, or what it threw (HTTP status, message). */
  datatype Attempt<T> = Succeeded(value: T) | Threw(status: Option<int>, message: string)

  /** Rate limiting, payment and authorisation failures move on to another key. */
  predicate Retriable(status: Option<int>)
  {
    status == Some(429) || status == Some(402) || status == Some(401)
  }

  const RetryExhausted := "All API keys exhausted or non-retriable error occurred."

  /** The record of a key says failed. */
  predicate MaskFailed(metrics: map<string, KM.KeyMetrics>, key: string)
  {
    KM.MaskKey(key) in metrics && metrics[KM.MaskKey(key)].status == KM.Failed
  }

  predicate AllFailed(metrics: map<string, KM.KeyMetrics>, used: seq<string>)
  {
    forall i | 0 <= i < |used| :: MaskFailed(metrics, used[i])
  }

  /** No two keys in `used` share a record. */
  predicate DistinctRecords(used: seq<string>)
  {
    forall i, j | 0 <= i < j < |used| :: KM.MaskKey(used[i]) != KM.MaskKey(used[j])
  }

  /** The state the operation's closure shares across attempts, after the
    * attempts that ran with the keys `used`: each attempt starts from what the
    * one before it left. */
  function After<S, T>(op: (S, string, nat) -> (Attempt<T>, S), s0: S, used: seq<string>): S
    decreases |used|
  {
    if used == [] then s0 else op(After(op, s0, used[..|used| - 1]), used[|used| - 1], |used| - 1).1
  }

  /** What the i-th attempt gave. */
  function Tried<S, T>(op: (S, string, nat) -> (Attempt<T>, S), s0: S, used: seq<string>, i: nat): Attempt<T>
    requires i < |used|
  {
    op(After(op, s0, used[..i]), used[i], i).0
  }

  /** Each of the first n attempts threw a retriable error. */
  predicate RetriedOn<S, T>(op: (S, string, nat) -> (Attempt<T>, S), s0: S, used: seq<string>, n: nat)
    requires n <= |used|
  {
    forall i | 0 <= i < n :: Tried(op, s0, used, i).Threw? && Retriable(Tried(op, s0, used, i).status)
  }

  /** One more attempt leaves the earlier ones as they were and runs from the state they left. */
  lemma TriedSnoc<S, T>(op: (S, string, nat) -> (Attempt<T>, S), s0: S, used: seq<string>, key: string)
    ensures After(op, s0, used + [key]) == op(After(op, s0, used), key, |used|).1
    ensures Tried(op, s0, used + [key], |used|) == op(After(op, s0, used), key, |used|).0
    ensures forall i | 0 <= i < |used| :: Tried(op, s0, used + [key], i) == Tried(op, s0, used, i)
  {
    var u := used + [key];
    assert u[..|used|] == used;
    forall i | 0 <= i < |used| ensures Tried(op, s0, u, i) == Tried(op, s0, used, i) {
      assert u[..i] == used[..i] && u[i] == used[i];
    }
  }

  /** No key of the pool has a healthy record, so reading the current key throws. */
  predicate NoneHealthy(keys: seq<string>, metrics: map<string, KM.KeyMetrics>)
  {
    forall k | 0 <= k < |keys| :: !KM.HealthyAt(keys, metrics, k)
  }

  /** The records of the first n keys of `used`. */
  function UsedMasks(used: seq<string>, n: nat): set<string>
    requires n <= |used|
  {
    set i | 0 <= i < n :: KM.MaskKey(used[i])
  }

  lemma {:induction false} UsedMasksCard(used: seq<string>, n: nat)
    requires n <= |used| && DistinctRecords(used)
    ensures |UsedMasks(used, n)| == n
  {
    if n > 0 {
      UsedMasksCard(used, n - 1);
      assert UsedMasks(used, n) == UsedMasks(used, n - 1) + {KM.MaskKey(used[n - 1])};
      assert KM.MaskKey(used[n - 1]) !in UsedMasks(used, n - 1);
    }
  }

  /** Once as many keys as the pool holds were tried, each with a record of
    * its own that is now failed, no healthy key is left. */
  lemma TriedAllNoneHealthy(keys: seq<string>, metrics: map<string, KM.KeyMetrics>, used: seq<string>)
    requires |used| == |keys| && forall i | 0 <= i < |used| :: used[i] in keys
    requires DistinctRecords(used) && AllFailed(metrics, used)
    ensures NoneHealthy(keys, metrics)
  {
    var tried, all := UsedMasks(used, |used|), KM.Masks(keys);
    UsedMasksCard(used, |used|);
    KM.MasksBound(keys);
    assert tried <= all;
    assert all == tried + (all - tried);
    assert all == tried;
    forall k | 0 <= k < |keys| ensures !KM.HealthyAt(keys, metrics, k) {
      assert KM.MaskKey(keys[k]) in all;
      var i :| 0 <= i < |used| && KM.MaskKey(used[i]) == KM.MaskKey(keys[k]);
      assert MaskFailed(metrics, used[i]);
    }
  }

  /** A key whose record is healthy is none of the failed keys, so it can be added. */
  lemma HealthyExtends(metrics: map<string, KM.KeyMetrics>, used: seq<string>, key: string)
    requires AllFailed(metrics, used) && DistinctRecords(used)
    requires KM.MaskKey(key) in metrics && metrics[KM.MaskKey(key)].status == KM.Healthy
    ensures DistinctRecords(used + [key])
  {
    var u := used + [key];
    forall i, j | 0 <= i < j < |u| ensures KM.MaskKey(u[i]) != KM.MaskKey(u[j]) {
      if j == |used| {
        assert MaskFailed(metrics, used[i]);
      } else {
        assert u[i] == used[i] && u[j] == used[j];
      }
    }
  }

  /** Marking the record of `key` failed keeps the others failed and adds `key`. */
  lemma FailedExtends(metrics: map<string, KM.KeyMetrics>, used: seq<string>, key: string, rec: KM.KeyMetrics)
    requires AllFailed(metrics, used) && rec.status == KM.Failed
    ensures AllFailed(metrics[KM.MaskKey(key) := rec], used + [key])
  {
    var m := metrics[KM.MaskKey(key) := rec];
    var u := used + [key];
    forall i | 0 <= i < |u| ensures MaskFailed(m, u[i]) {
      if i < |used| {
        assert u[i] == used[i] && MaskFailed(metrics, used[i]);
      }
    }
  }

  /** The retriable-failure branch: mark the current key failed, rotate, and
    * read the key the next attempt would use. */
  method FailAndRotate(km: KM.KeyManager, failed: seq<string>, key: string, reason: string, now: nat)
    returns (next: Result<string>)
    requires km.Valid() && |km.keys| > 0 && key == km.keys[km.currentIndex] && AllFailed(km.metrics, failed)
    modifies km
    ensures km.Valid() && km.keys == old(km.keys)
    ensures AllFailed(km.metrics, failed + [key])
    ensures next.Ok? ==> exists k | 0 <= k < |km.keys| :: KM.HealthyAt(km.keys, km.metrics, k)
    ensures next.Err? ==> next == Err(KM.ExhaustedError) && NoneHealthy(km.keys, km.metrics)
  {
    ghost var m0 := km.metrics;
    km.MarkCurrentKeyAsFailed(reason, now);
    FailedExtends(m0, failed, key, km.metrics[KM.MaskKey(key)]);
    var _ := km.RotateKey(now);
    ghost var i0 := km.currentIndex;
    next := km.GetCurrentKey(now);
    CurrentKeyRead(km.keys, km.metrics, i0, km.currentIndex, next);
  }

  /** What reading the current key of a non-empty pool tells: a key comes
    * back only when its record is healthy, and the read throws the
    * exhaustion error only when no record is. */
  lemma CurrentKeyRead(keys: seq<string>, metrics: map<string, KM.KeyMetrics>, i0: nat, i1: nat, r: Result<string>)
    requires i0 < |keys| && i1 < |keys|
    requires r.Ok? ==> KM.HealthyAt(keys, metrics, i1)
    requires KM.HealthyAt(keys, metrics, i0) ==> r.Ok?
    requires !KM.HealthyAt(keys, metrics, i0) ==>
               (r.Err? <==> KM.FirstHealthyStep(keys, metrics, i0, 1).None?) && (r.Err? ==> r.error == KM.ExhaustedError)
    ensures r.Ok? ==> exists k | 0 <= k < |keys| :: KM.HealthyAt(keys, metrics, k)
    ensures r.Err? ==> r == Err(KM.ExhaustedError) && NoneHealthy(keys, metrics)
  {
    KM.RotationFindsHealthyKey(keys, metrics, i0);
  }

  /** executeWithRetry: at most one attempt per key counted at the start; a
    * retriable failure marks the key failed and rotates, anything else is
    * rethrown. `op(s, key, n)` is what the n-th attempt with `key` gives when
    * the state the closure shares is `s`, and the state it leaves; `used`
    * lists the keys the attempts ran with and `s` is the state they left. */
  method ExecuteWithRetry<S, T>(km: KM.KeyManager, op: (S, string, nat) -> (Attempt<T>, S), s0: S, now: nat)
    returns (r: Result<T>, used: seq<string>, s: S)
    requires km.Valid()
    modifies km
    ensures km.Valid() && km.keys == old(km.keys)
    ensures |used| <= |km.keys|
    ensures |km.keys| == 0 ==> r == Err(RetryExhausted) && used == [] && s == s0
    ensures forall i | 0 <= i < |used| :: used[i] in km.keys
    ensures s == After(op, s0, used)
    ensures Reported(op, s0, used, r)
    ensures DistinctRecords(used)
    ensures RetriedOn(op, s0, used, |used|) ==> AllFailed(km.metrics, used)
    ensures |km.keys| > 0 && used == [] ==> r == Err(KM.ExhaustedError) && NoneHealthy(old(km.keys), old(km.metrics))
    ensures |used| > 0 && Tried(op, s0, used, |used| - 1).Threw? && Retriable(Tried(op, s0, used, |used| - 1).status) ==>
              r == Err(KM.ExhaustedError) && NoneHealthy(km.keys, km.metrics)
    ensures r == Err(RetryExhausted) && |km.keys| > 0 ==>
              |used| > 0 && Tried(op, s0, used, |used| - 1).Threw? && !Retriable(Tried(op, s0, used, |used| - 1).status)
              && Tried(op, s0, used, |used| - 1).message == RetryExhausted
  {
    var total := km.GetKeyCount();
    var attempt := 0;
    used, s := [], s0;
    while attempt < total
      invariant km.Valid() && km.keys == old(km.keys) && total == |km.keys|
      invariant attempt == |used| <= total
      invariant forall i | 0 <= i < |used| :: used[i] in km.keys
      invariant s == After(op, s0, used)
      invariant RetriedOn(op, s0, used, |used|)
      invariant AllFailed(km.metrics, used)
      invariant DistinctRecords(used)
      invariant used == [] ==> km.metrics == old(km.metrics)
      invariant |used| > 0 ==> exists k | 0 <= k < |km.keys| :: KM.HealthyAt(km.keys, km.metrics, k)
      decreases total - attempt
    {
      var step;
      step, used, s := TryOnce(km, op, s0, used, s, now);
      if step.Done? {
        return step.result, used, s;
      }
      attempt := attempt + 1;
    }
    if total > 0 {
      // Every key was tried on a record of its own and failed, yet the last
      // rotation found a healthy one: the loop never runs out on a non-empty pool.
      TriedAllNoneHealthy(km.keys, km.metrics, used);
      assert false;
    }
    return Err(RetryExhausted), used, s;
  }

  /** What one attempt of the retry loop decides: go on with the next key, or
    * end with a result. */
  datatype Step<T> = Next | Done(result: Result<T>)

  /** What executeWithRetry promises about the attempts it made and its result. */
  ghost predicate Reported<S, T>(op: (S, string, nat) -> (Attempt<T>, S), s0: S, used: seq<string>, r: Result<T>)
  {
    && (|used| > 0 ==> RetriedOn(op, s0, used, |used| - 1))
    && (r.Ok? ==> |used| > 0 && Tried(op, s0, used, |used| - 1) == Succeeded(r.value))
    && (|used| > 0 && Tried(op, s0, used, |used| - 1).Succeeded? ==> r == Ok(Tried(op, s0, used, |used| - 1).value))
    && (|used| > 0 && Tried(op, s0, used, |used| - 1).Threw? && !Retriable(Tried(op, s0, used, |used| - 1).status) ==>
          r == Err(Tried(op, s0, used, |used| - 1).message))
  }

  /** One turn of the retry loop: take the current key, run the attempt from
    * the shared state, and on a retriable failure mark the key failed and rotate. */
  method TryOnce<S, T>(km: KM.KeyManager, op: (S, string, nat) -> (Attempt<T>, S), ghost s0: S, used: seq<string>, s: S, now: nat)
    returns (step: Step<T>, used': seq<string>, s': S)
    requires km.Valid()
    requires forall i | 0 <= i < |used| :: used[i] in km.keys
    requires s == After(op, s0, used)
    requires RetriedOn(op, s0, used, |used|) && AllFailed(km.metrics, used) && DistinctRecords(used)
    modifies km
    ensures km.Valid() && km.keys == old(km.keys)
    ensures used' == used || (|used'| == |used| + 1 && used'[..|used|] == used)
    ensures forall i | 0 <= i < |used'| :: used'[i] in km.keys
    ensures s' == After(op, s0, used')
    ensures DistinctRecords(used')
    ensures step.Next? ==> |used'| == |used| + 1 && RetriedOn(op, s0, used', |used'|) && AllFailed(km.metrics, used')
    ensures step.Done? ==> Reported(op, s0, used', step.result)
    ensures step.Done? && RetriedOn(op, s0, used', |used'|) ==> AllFailed(km.metrics, used')
    ensures step.Next? ==> exists k | 0 <= k < |km.keys| :: KM.HealthyAt(km.keys, km.metrics, k)
    ensures step.Done? && used' == used ==>
              && km.metrics == old(km.metrics)
              && step.result == Err(if |km.keys| == 0 then KM.NoKeysError else KM.ExhaustedError)
              && NoneHealthy(km.keys, old(km.metrics))
    ensures step.Done? && used' != used && Tried(op, s0, used', |used|).Threw? && Retriable(Tried(op, s0, used', |used|).status) ==>
              step.result == Err(KM.ExhaustedError) && NoneHealthy(km.keys, km.metrics)
  {
    ghost var i0 := km.currentIndex;
    var key := km.GetCurrentKey(now);
    if key.Err? {
      if |km.keys| > 0 {
        CurrentKeyRead(km.keys, km.metrics, i0, km.currentIndex, key);
      }
      return Done(Err(key.error)), used, s;
    }
    HealthyExtends(km.metrics, used, key.value);
    var outcome := op(s, key.value, |used|);
    used', s' := used + [key.value], outcome.1;
    TriedSnoc(op, s0, used, key.value);
    assert used'[..|used|] == used;
    assert RetriedOn(op, s0, used', |used'| - 1);
    if outcome.0.Succeeded? {
      return Done(Ok(outcome.0.value)), used', s';
    }
    if !Retriable(outcome.0.status) {
      return Done(Err(outcome.0.message)), used', s';
    }
    var refreshed := FailAndRotate(km, used, key.value, outcome.0.message, now);
    if refreshed.Err? {
      return Done(Err(refreshed.error)), used', s';
    }
    step := Next;
  }

  // ---------------------------------------------------------------------
  // One agent run

  datatype ToolCall = ToolCall(id: string, name: string, arguments: string)

  /** A reply of the model: its text, if any, and the tools it asks for. */
  datatype Reply = Reply(content: Option<string>, toolCalls: seq<ToolCall>)

  datatype ChatMessage =
    | SystemMessage(prompt: Config.Prompt)
    | UserMessage(text: string)
    | AssistantMessage(reply: Reply)
    | ToolMessage(toolCallId: string, content: Option<string>)
    | HistoryMessage(role: string, text: string)

  datatype AgentOutput = AgentOutput(content: string, toolResults: map<string, Option<Json>>)

  const MaxCycles: nat := 5

  function NoExecutorError(name: string): string
  {
    "Agent " + name + " attempted tool call but no ToolExecutor provided"
  }

  function MaxCyclesError(name: string): string
  {
    "Agent " + name + " exceeded max tool cycles (5)"
  }

  /** `result.data || result.error`. */
  function ToolValue(r: TE.ToolCallResult): (v: Option<Json>)
    ensures TruthyOpt(r.data) ==> v == r.data
    ensures !TruthyOpt(r.data) && r.error.Some? ==> v == Some(JStr(r.error.value))
    ensures !TruthyOpt(r.data) && r.error.None? ==> v.None?
  {
    if TruthyOpt(r.data) then r.data
    else if r.error.Some? then Some(JStr(r.error.value)) else None
  }

  /** What the tools of a run are asked through: the executor's state before
    * a call, the tool name and the parsed arguments give the call's result
    * and the state after it. */
  type Exec<!E> = (E, string, Json) -> (TE.ToolCallResult, E)

  /** A round of tool calls: the parse error that stopped it, if any, the tool
    * results, the tool messages answering the calls, and the executor's state. */
  datatype RoundOut<E> = RoundOut(error: Option<string>, results: map<string, Option<Json>>,
                                  answers: seq<ChatMessage>, executor: E)

  /** The tool message answering a call whose recorded value is `v`. */
  function Answer(c: ToolCall, v: Option<Json>, stringify: Json -> string): (m: ChatMessage)
    ensures m.ToolMessage? && m.toolCallId == c.id
    ensures m.content.Some? <==> v.Some?
  {
    ToolMessage(c.id, if v.Some? then Some(stringify(v.value)) else None)
  }

  /** The calls `cs` run in order from executor state `e` and tool results
    * `m`: each parses its arguments, runs on the state the previous call left,
    * writes its tool's entry and is answered; the first parse error stops the
    * rest. */
  function Round<E>(e: E, m: map<string, Option<Json>>, cs: seq<ToolCall>, exec: Exec<E>,
                    parse: string -> Result<Json>, stringify: Json -> string): RoundOut<E>
    decreases |cs|
  {
    if cs == [] then RoundOut(None, m, [], e)
    else
      var prev := Round(e, m, cs[..|cs| - 1], exec, parse, stringify);
      var c := cs[|cs| - 1];
      if prev.error.Some? then prev
      else match parse(c.arguments)
        case Err(msg) => prev.(error := Some(msg))
        case Ok(args) =>
          var o := exec(prev.executor, c.name, args);
          var v := ToolValue(o.0);
          RoundOut(None, prev.results[c.name := v], prev.answers + [Answer(c, v, stringify)], o.1)
  }

  /** Running `a` and then `b` is running `a + b`: the second part starts from
    * the state and the results the first left, unless the first stopped. */
  lemma {:induction false} RoundAppend<E>(e: E, m: map<string, Option<Json>>, a: seq<ToolCall>, b: seq<ToolCall>,
                                          exec: Exec<E>, parse: string -> Result<Json>, stringify: Json -> string)
    ensures var ra := Round(e, m, a, exec, parse, stringify);
            var rb := Round(ra.executor, ra.results, b, exec, parse, stringify);
            Round(e, m, a + b, exec, parse, stringify) ==
              if ra.error.Some? then ra else RoundOut(rb.error, rb.results, ra.answers + rb.answers, rb.executor)
    decreases |b|
  {
    if b == [] {
      assert a + b == a;
    } else {
      var b', c := b[..|b| - 1], b[|b| - 1];
      assert (a + b)[..|a + b| - 1] == a + b' && (a + b)[|a + b| - 1] == c;
      RoundAppend(e, m, a, b', exec, parse, stringify);
      var ra := Round(e, m, a, exec, parse, stringify);
      var rb' := Round(ra.executor, ra.results, b', exec, parse, stringify);
      if ra.error.None? && rb'.error.None? && parse(c.arguments).Ok? {
        var o := exec(rb'.executor, c.name, parse(c.arguments).value);
        var v := ToolValue(o.0);
        assert ra.answers + (rb'.answers + [Answer(c, v, stringify)]) == (ra.answers + rb'.answers) + [Answer(c, v, stringify)];
      }
    }
  }

  /** A round only adds entries: every tool result present before is present after. */
  lemma {:induction false} RoundGrows<E>(e: E, m: map<string, Option<Json>>, cs: seq<ToolCall>, exec: Exec<E>,
                                         parse: string -> Result<Json>, stringify: Json -> string)
    ensures m.Keys <= Round(e, m, cs, exec, parse, stringify).results.Keys
    decreases |cs|
  {
    if cs != [] {
      RoundGrows(e, m, cs[..|cs| - 1], exec, parse, stringify);
    }
  }

  /** A round that was not stopped gives a tool an entry iff it had one or was
    * called, and leaves the entries of tools it did not call as they were. */
  lemma {:induction false} RoundKeys<E>(e: E, m: map<string, Option<Json>>, cs: seq<ToolCall>, exec: Exec<E>,
                                        parse: string -> Result<Json>, stringify: Json -> string, k: string)
    requires Round(e, m, cs, exec, parse, stringify).error.None?
    ensures k in Round(e, m, cs, exec, parse, stringify).results <==> k in m || exists i | 0 <= i < |cs| :: cs[i].name == k
    ensures (forall i | 0 <= i < |cs| :: cs[i].name != k) && k in m ==> Round(e, m, cs, exec, parse, stringify).results[k] == m[k]
    decreases |cs|
  {
    if cs != [] {
      var init := cs[..|cs| - 1];
      RoundKeys(e, m, init, exec, parse, stringify, k);
      assert forall i | 0 <= i < |init| :: init[i] == cs[i];
      if exists i | 0 <= i < |cs| :: cs[i].name == k {
        var i :| 0 <= i < |cs| && cs[i].name == k;
        if i < |init| {
          assert init[i].name == k;
        }
      }
    }
  }

  /** The value the i-th call of a round records: its result on the state the earlier calls left. */
  function CallValue<E>(e: E, m: map<string, Option<Json>>, cs: seq<ToolCall>, i: nat, exec: Exec<E>,
                        parse: string -> Result<Json>, stringify: Json -> string): Option<Json>
    requires i < |cs| && parse(cs[i].arguments).Ok?
  {
    ToolValue(exec(Round(e, m, cs[..i], exec, parse, stringify).executor, cs[i].name, parse(cs[i].arguments).value).0)
  }

  /** The entry of a tool is the value of its latest call, so a later call
    * overwrites an earlier one; every call of a round that was not stopped
    * had arguments that parse. */
  lemma {:induction false} RoundLatest<E>(e: E, m: map<string, Option<Json>>, cs: seq<ToolCall>, i: nat, exec: Exec<E>,
                                          parse: string -> Result<Json>, stringify: Json -> string)
    requires Round(e, m, cs, exec, parse, stringify).error.None? && i < |cs|
    requires forall j | i < j < |cs| :: cs[j].name != cs[i].name
    ensures parse(cs[i].arguments).Ok?
    ensures cs[i].name in Round(e, m, cs, exec, parse, stringify).results
    ensures Round(e, m, cs, exec, parse, stringify).results[cs[i].name] == CallValue(e, m, cs, i, exec, parse, stringify)
    decreases |cs|
  {
    var init := cs[..|cs| - 1];
    if i < |cs| - 1 {
      assert init[i] == cs[i] && init[..i] == cs[..i];
      RoundLatest(e, m, init, i, exec, parse, stringify);
    } else {
      assert cs[..i] == init;
    }
  }

  /** The tool executor as a round calls it: executeToolCall on the executor's state. */
  function ExecutorCalls(sessionId: string, nowIso: string, backend: TE.Backend): Exec<TE.State>
  {
    (st: TE.State, name: string, args: Json) => TE.Execute(st, sessionId, name, args, nowIso, backend)
  }

  /** One executor serves all calls of a reply: an insight written by a call
    * is in the answer of a read_context later in the same reply. */
  lemma WriteThenReadInOneReply(st: TE.State, m: map<string, Option<Json>>, w: ToolCall, rc: ToolCall, args: Json,
                                sessionId: string, nowIso: string, backend: TE.Backend,
                                parse: string -> Result<Json>, stringify: Json -> string)
    requires w.name == "write_context" && rc.name == "read_context"
    requires parse(w.arguments) == Ok(args) && parse(rc.arguments) == Ok(JObj([]))
    requires TruthyOpt(st.dataDna) && st.insights.JArr? && TE.StampedInsight(args, nowIso).Ok?
    ensures var rd := Round(st, m, [w, rc], ExecutorCalls(sessionId, nowIso, backend), parse, stringify);
            && rd.error.None?
            && rd.results["read_context"] ==
                 Some(JObj([("insights", JArr(st.insights.items + [TE.StampedInsight(args, nowIso).value]))]))
  {
    var exec := ExecutorCalls(sessionId, nowIso, backend);
    var after := TE.WriteContextOf(st, args, nowIso, backend).1;
    assert [w, rc][..1] == [w] && [w][..0] == [];
    var r0 := Round(st, m, [], exec, parse, stringify);
    assert r0 == RoundOut(None, m, [], st);
    var r1 := Round(st, m, [w], exec, parse, stringify);
    assert exec(st, w.name, args).1 == after;
    assert r1.error.None? && r1.executor == after;
    TE.WriteSeenInContext(st, args, nowIso, backend);
    var read := exec(after, rc.name, JObj([]));
    assert read.0.data == Some(JObj([("insights", JArr(st.insights.items + [TE.StampedInsight(args, nowIso).value]))]));
  }

  /** A round that was not stopped answers every call, in call order; a stopped
    * one answers the calls before the one that failed to parse. */
  lemma {:induction false} RoundAnswers<E>(e: E, m: map<string, Option<Json>>, cs: seq<ToolCall>, exec: Exec<E>,
                                           parse: string -> Result<Json>, stringify: Json -> string)
    ensures var r := Round(e, m, cs, exec, parse, stringify);
            |r.answers| <= |cs| && Answers(r.answers, cs[..|r.answers|])
    ensures var r := Round(e, m, cs, exec, parse, stringify);
            r.error.None? ==> Answers(r.answers, cs)
    ensures var r := Round(e, m, cs, exec, parse, stringify);
            r.error.Some? ==> |r.answers| < |cs| && parse(cs[|r.answers|].arguments) == Err(r.error.value)
    decreases |cs|
  {
    if cs != [] {
      var init := cs[..|cs| - 1];
      RoundAnswers(e, m, init, exec, parse, stringify);
      var prev := Round(e, m, init, exec, parse, stringify);
      assert cs[..|prev.answers|] == init[..|prev.answers|];
      assert init[..|init|] == init;
      if prev.error.Some? {
        assert cs[|prev.answers|] == init[|prev.answers|];
      } else if parse(cs[|cs| - 1].arguments).Ok? {
        var r := Round(e, m, cs, exec, parse, stringify);
        assert cs[..|r.answers|] == cs;
        AnswersNext(prev.answers, cs, |init|, r.answers[|init|]);
        assert cs[..|init| + 1] == cs;
      }
    }
  }

  /** One tool message per call, in call order, each answering its call's id. */
  predicate Answers(answers: seq<ChatMessage>, calls: seq<ToolCall>)
  {
    |answers| == |calls| && forall i | 0 <= i < |calls| :: answers[i].ToolMessage? && answers[i].toolCallId == calls[i].id
  }

  lemma AnswersNext(answers: seq<ChatMessage>, calls: seq<ToolCall>, j: nat, reply: ChatMessage)
    requires j < |calls| && Answers(answers, calls[..j])
    requires reply.ToolMessage? && reply.toolCallId == calls[j].id
    ensures Answers(answers + [reply], calls[..j + 1])
  {
    var a, c := answers + [reply], calls[..j + 1];
    forall i | 0 <= i < |c| ensures a[i].ToolMessage? && a[i].toolCallId == c[i].id {
      if i < j {
        assert a[i] == answers[i] && c[i] == calls[..j][i];
      }
    }
  }

  /** The tool calls of a run of replies, in order. */
  function AllCalls(replies: seq<Reply>): seq<ToolCall>
  {
    if replies == [] then [] else AllCalls(replies[..|replies| - 1]) + replies[|replies| - 1].toolCalls
  }

  lemma AllCallsSnoc(replies: seq<Reply>, reply: Reply)
    ensures AllCalls(replies + [reply]) == AllCalls(replies) + reply.toolCalls
  {
    assert (replies + [reply])[..|replies|] == replies;
  }

  /** `message.content || ""`. */
  function ContentOrEmpty(c: Option<string>): (s: string)
    ensures c.Some? ==> s == c.value
    ensures c.None? ==> s == ""
  {
    if c.Some? then c.value else ""
  }

  /** `token || ''` summed over the stream. */
  function Concat(tokens: seq<Option<string>>): string
  {
    if tokens == [] then "" else Concat(tokens[..|tokens| - 1]) + ContentOrEmpty(tokens[|tokens| - 1])
  }

  /** runTools: the tool calls of one reply run one by one from executor state
    * `e` and results `m`; arguments that do not parse stop the run. */
  method RunTools<E>(e: E, m: map<string, Option<Json>>, calls: seq<ToolCall>, exec: Exec<E>,
                     parse: string -> Result<Json>, stringify: Json -> string)
    returns (out: RoundOut<E>)
    ensures out == Round(e, m, calls, exec, parse, stringify)
  {
    var state, toolResults, answers := e, m, [];
    var j := 0;
    while j < |calls|
      invariant 0 <= j <= |calls|
      invariant Round(e, m, calls[..j], exec, parse, stringify) == RoundOut(None, toolResults, answers, state)
    {
      assert calls[..j + 1][..j] == calls[..j];
      var call := calls[j];
      var args := parse(call.arguments);
      if args.Err? {
        RoundAppend(e, m, calls[..j + 1], calls[j + 1..], exec, parse, stringify);
        assert calls[..j + 1] + calls[j + 1..] == calls;
        return RoundOut(Some(args.error), toolResults, answers, state);
      }
      var o := exec(state, call.name, args.value);
      state := o.1;
      var v := ToolValue(o.0);
      toolResults := toolResults[call.name := v];
      answers := answers + [Answer(call, v, stringify)];
      j := j + 1;
    }
    assert calls[..j] == calls;
    return RoundOut(None, toolResults, answers, state);
  }

  /** What a run of the agent carries from one model call to the next and,
    * because the retry closure shares it, from one attempt to the next: the
    * messages so far, the tool results and the tool executor's state. */
  datatype Conv<E> = Conv(messages: seq<ChatMessage>, toolResults: map<string, Option<Json>>, executor: E)

  /** The client of one key: a completion of the messages so far, and the
    * tokens a streamed completion yields. */
  datatype Model = Model(complete: seq<ChatMessage> -> Attempt<Reply>,
                         streamed: seq<ChatMessage> -> Attempt<seq<Option<string>>>)

  /** The agent being run: its name, whether the first completion streams,
    * its tool executor if it has one, and the JSON engine. */
  datatype Agent<!E> = Agent(name: string, stream: bool, exec: Option<Exec<E>>,
                            parse: string -> Result<Json>, stringify: Json -> string)

  /** One attempt: how it ended, what it leaves behind, and the model's replies. */
  datatype AttemptOut<E> = AttemptOut(result: Attempt<AgentOutput>, conv: Conv<E>, replies: seq<Reply>)

  /** A streamed first completion: the concatenated tokens, or what the stream threw. */
  function StreamResult(s: Attempt<seq<Option<string>>>, toolResults: map<string, Option<Json>>): (r: Attempt<AgentOutput>)
    ensures s.Succeeded? ==> r == Succeeded(AgentOutput(Concat(s.value), toolResults))
    ensures s.Threw? ==> r == Threw(s.status, s.message)
  {
    match s
    case Succeeded(ts) => Succeeded(AgentOutput(Concat(ts), toolResults))
    case Threw(st, msg) => Threw(st, msg)
  }

  /** The cycles of one attempt from cycle `cycle` on, with `replies` the
    * replies so far: a streamed first cycle returns the tokens; otherwise the
    * model sees the messages so far, its reply is appended, and a reply asking
    * for tools has them run and answered before the next cycle. */
  function Cycles<E>(a: Agent<E>, model: Model, cycle: nat, conv: Conv<E>, replies: seq<Reply>): AttemptOut<E>
    requires cycle <= MaxCycles
    decreases MaxCycles - cycle
  {
    if cycle == MaxCycles then AttemptOut(Threw(None, MaxCyclesError(a.name)), conv, replies)
    else if a.stream && cycle == 0 then AttemptOut(StreamResult(model.streamed(conv.messages), conv.toolResults), conv, replies)
    else match model.complete(conv.messages)
      case Threw(st, msg) => AttemptOut(Threw(st, msg), conv, replies)
      case Succeeded(reply) =>
        var heard := conv.(messages := conv.messages + [AssistantMessage(reply)]);
        if reply.toolCalls == [] then
          AttemptOut(Succeeded(AgentOutput(ContentOrEmpty(reply.content), conv.toolResults)), heard, replies + [reply])
        else if a.exec.None? then AttemptOut(Threw(None, NoExecutorError(a.name)), heard, replies + [reply])
        else
          var rd := Round(conv.executor, conv.toolResults, reply.toolCalls, a.exec.value, a.parse, a.stringify);
          var next := Conv(heard.messages + rd.answers, rd.results, rd.executor);
          if rd.error.Some? then AttemptOut(Threw(None, rd.error.value), next, replies + [reply])
          else Cycles(a, model, cycle + 1, next, replies + [reply])
  }

  /** The round all tool calls of `replies` make from `conv0`, as one run. */
  function RoundOfReplies<E>(a: Agent<E>, conv0: Conv<E>, replies: seq<Reply>): RoundOut<E>
    requires a.exec.Some?
  {
    Round(conv0.executor, conv0.toolResults, AllCalls(replies), a.exec.value, a.parse, a.stringify)
  }

  /** What the cycles so far have kept, as the loop of runAgent keeps it. */
  ghost predicate CyclesSoFar<E>(a: Agent<E>, conv0: Conv<E>, cycle: nat, conv: Conv<E>, replies: seq<Reply>)
  {
    && |replies| == cycle <= MaxCycles
    && (a.stream ==> cycle == 0)
    && (forall i | 0 <= i < |replies| :: replies[i].toolCalls != [])
    && conv0.messages <= conv.messages
    && conv0.toolResults.Keys <= conv.toolResults.Keys
    && (a.exec.None? ==> replies == [] && conv == conv0)
    && (a.exec.Some? ==> RoundOfReplies(a, conv0, replies).error.None?
                         && RoundOfReplies(a, conv0, replies).results == conv.toolResults
                         && RoundOfReplies(a, conv0, replies).executor == conv.executor)
  }

  /** The replies of an attempt: at most five, each but the last asking for
    * tools, and a success is the text of a last reply that asks for none. */
  lemma {:induction false} CyclesReplies<E>(a: Agent<E>, model: Model, cycle: nat, conv: Conv<E>, replies: seq<Reply>)
    requires |replies| == cycle <= MaxCycles && (a.stream ==> cycle == 0)
    requires forall i | 0 <= i < |replies| :: replies[i].toolCalls != []
    ensures var out := Cycles(a, model, cycle, conv, replies);
            && replies <= out.replies && |out.replies| <= MaxCycles
            && (forall i | 0 <= i < |out.replies| - 1 :: out.replies[i].toolCalls != [])
            && (out.result.Succeeded? && !a.stream ==>
                  out.replies != [] && out.replies[|out.replies| - 1].toolCalls == []
                  && out.result.value.content == ContentOrEmpty(out.replies[|out.replies| - 1].content))
    decreases MaxCycles - cycle
  {
    if cycle < MaxCycles && !(a.stream && cycle == 0) && model.complete(conv.messages).Succeeded? {
      var reply := model.complete(conv.messages).value;
      var replies' := replies + [reply];
      assert forall i | 0 <= i < |replies'| - 1 :: replies'[i] == replies[i];
      if reply.toolCalls != [] && a.exec.Some? {
        var rd := Round(conv.executor, conv.toolResults, reply.toolCalls, a.exec.value, a.parse, a.stringify);
        var next := Conv(conv.messages + [AssistantMessage(reply)] + rd.answers, rd.results, rd.executor);
        if rd.error.None? {
          assert Cycles(a, model, cycle, conv, replies) == Cycles(a, model, cycle + 1, next, replies');
          CyclesReplies(a, model, cycle + 1, next, replies');
        }
      }
    }
  }

  /** The conversation and the tool results of an attempt only grow, and a
    * success returns the tool results the attempt leaves. */
  lemma {:induction false} CyclesGrow<E>(a: Agent<E>, model: Model, conv0: Conv<E>, cycle: nat, conv: Conv<E>, replies: seq<Reply>)
    requires CyclesSoFar(a, conv0, cycle, conv, replies)
    ensures var out := Cycles(a, model, cycle, conv, replies);
            && conv0.messages <= out.conv.messages
            && conv0.toolResults.Keys <= out.conv.toolResults.Keys
            && (out.result.Succeeded? ==> out.result.value.toolResults == out.conv.toolResults)
    decreases MaxCycles - cycle
  {
    if cycle < MaxCycles && !(a.stream && cycle == 0) && model.complete(conv.messages).Succeeded? {
      var reply := model.complete(conv.messages).value;
      assert conv0.messages <= conv.messages + [AssistantMessage(reply)];
      if reply.toolCalls != [] && a.exec.Some? {
        var next := CyclesStep(a, model, conv0, cycle, conv, replies);
        if next.Some? {
          CyclesGrow(a, model, conv0, cycle + 1, next.value, replies + [reply]);
        } else {
          RoundGrows(conv.executor, conv.toolResults, reply.toolCalls, a.exec.value, a.parse, a.stringify);
        }
      }
    }
  }

  /** The tool results of an attempt: with an executor, a success holds the
    * results of every call of the attempt, run in order on one executor, and
    * leaves the executor's state that run ends in; without one nothing is recorded. */
  lemma {:induction false} CyclesRound<E>(a: Agent<E>, model: Model, conv0: Conv<E>, cycle: nat, conv: Conv<E>, replies: seq<Reply>)
    requires CyclesSoFar(a, conv0, cycle, conv, replies)
    ensures var out := Cycles(a, model, cycle, conv, replies);
            && (a.exec.Some? && out.result.Succeeded? ==>
                  RoundOfReplies(a, conv0, out.replies).error.None?
                  && RoundOfReplies(a, conv0, out.replies).results == out.conv.toolResults
                  && RoundOfReplies(a, conv0, out.replies).executor == out.conv.executor)
            && (a.exec.None? ==> out.conv.toolResults == conv0.toolResults && out.conv.executor == conv0.executor)
    decreases MaxCycles - cycle
  {
    if cycle < MaxCycles && !(a.stream && cycle == 0) && model.complete(conv.messages).Succeeded? {
      var reply := model.complete(conv.messages).value;
      AllCallsSnoc(replies, reply);
      if reply.toolCalls == [] {
        assert AllCalls(replies) + reply.toolCalls == AllCalls(replies);
      } else if a.exec.Some? {
        var next := CyclesStep(a, model, conv0, cycle, conv, replies);
        if next.Some? {
          CyclesRound(a, model, conv0, cycle + 1, next.value, replies + [reply]);
        }
      }
    }
  }

  /** How an attempt fails by itself: five replies that all ask for tools end
    * in the cycle error, and tools asked of an agent without an executor in
    * its own error. */
  lemma {:induction false} CyclesErrors<E>(a: Agent<E>, model: Model, conv0: Conv<E>, cycle: nat, conv: Conv<E>, replies: seq<Reply>)
    requires CyclesSoFar(a, conv0, cycle, conv, replies)
    ensures var out := Cycles(a, model, cycle, conv, replies);
            && (!a.stream && |out.replies| == MaxCycles && out.replies[MaxCycles - 1].toolCalls != [] && a.exec.Some?
                && RoundOfReplies(a, conv0, out.replies).error.None? ==>
                  out.result == Threw(None, MaxCyclesError(a.name)))
            && (!a.stream && a.exec.None? && out.replies != [] && out.replies[|out.replies| - 1].toolCalls != [] ==>
                  out.result == Threw(None, NoExecutorError(a.name)))
    decreases MaxCycles - cycle
  {
    if cycle < MaxCycles && !(a.stream && cycle == 0) && model.complete(conv.messages).Succeeded? {
      var reply := model.complete(conv.messages).value;
      if reply.toolCalls != [] && a.exec.Some? {
        var next := CyclesStep(a, model, conv0, cycle, conv, replies);
        if next.Some? {
          CyclesErrors(a, model, conv0, cycle + 1, next.value, replies + [reply]);
        } else {
          var rd := Round(conv.executor, conv.toolResults, reply.toolCalls, a.exec.value, a.parse, a.stringify);
          AllCallsSnoc(replies, reply);
          RoundAppend(conv0.executor, conv0.toolResults, AllCalls(replies), reply.toolCalls, a.exec.value, a.parse, a.stringify);
        }
      }
    }
  }

  /** A cycle whose reply asks for tools that all run: the attempt goes on from
    * the conversation after the round, and what the cycles kept still holds. */
  lemma CyclesStep<E>(a: Agent<E>, model: Model, conv0: Conv<E>, cycle: nat, conv: Conv<E>, replies: seq<Reply>)
    returns (next: Option<Conv<E>>)
    requires CyclesSoFar(a, conv0, cycle, conv, replies)
    requires cycle < MaxCycles && !(a.stream && cycle == 0) && model.complete(conv.messages).Succeeded?
    requires model.complete(conv.messages).value.toolCalls != [] && a.exec.Some?
    ensures var reply := model.complete(conv.messages).value;
            var rd := Round(conv.executor, conv.toolResults, reply.toolCalls, a.exec.value, a.parse, a.stringify);
            && (next.Some? <==> rd.error.None?)
            && (next.Some? ==> next.value == Conv(conv.messages + [AssistantMessage(reply)] + rd.answers, rd.results, rd.executor)
                               && CyclesSoFar(a, conv0, cycle + 1, next.value, replies + [reply])
                               && Cycles(a, model, cycle, conv, replies) == Cycles(a, model, cycle + 1, next.value, replies + [reply]))
            && (next.None? ==> Cycles(a, model, cycle, conv, replies) ==
                                 AttemptOut(Threw(None, rd.error.value),
                                            Conv(conv.messages + [AssistantMessage(reply)] + rd.answers, rd.results, rd.executor),
                                            replies + [reply]))
  {
    var reply := model.complete(conv.messages).value;
    var exec := a.exec.value;
    var rd := Round(conv.executor, conv.toolResults, reply.toolCalls, exec, a.parse, a.stringify);
    var c := Conv(conv.messages + [AssistantMessage(reply)] + rd.answers, rd.results, rd.executor);
    AllCallsSnoc(replies, reply);
    RoundAppend(conv0.executor, conv0.toolResults, AllCalls(replies), reply.toolCalls, exec, a.parse, a.stringify);
    RoundGrows(conv.executor, conv.toolResults, reply.toolCalls, exec, a.parse, a.stringify);
    assert conv0.messages <= c.messages;
    next := if rd.error.None? then Some(c) else None;
  }

  /** One attempt of runAgent, as the retry runs it with the key's client:
    * the cycles from the conversation the earlier attempts left. */
  function AttemptWith<E>(a: Agent<E>, models: string -> Model): (op: (Conv<E>, string, nat) -> (Attempt<AgentOutput>, Conv<E>))
  {
    (conv: Conv<E>, key: string, n: nat) =>
      var out := Cycles(a, models(key), 0, conv, []);
      (out.result, out.conv)
  }

  /** The messages runAgent starts from: the system prompt, the history, and the user message. */
  function StartConv<E>(config: Config.AgentConfig, history: seq<ChatMessage>, userMessage: string, e: E): (c: Conv<E>)
    ensures |c.messages| == |history| + 2 && c.messages[0] == SystemMessage(config.systemPrompt)
    ensures c.messages[1..|history| + 1] == history && c.messages[|history| + 1] == UserMessage(userMessage)
    ensures c.toolResults == map[] && c.executor == e
  {
    Conv([SystemMessage(config.systemPrompt)] + history + [UserMessage(userMessage)], map[], e)
  }

  /** Each attempt keeps what the one before it left: the conversation and the
    * tool results of an earlier attempt are still there in every later one. */
  lemma {:induction false} AttemptsCarryOver<E>(a: Agent<E>, models: string -> Model, c0: Conv<E>, used: seq<string>, i: nat)
    requires i <= |used|
    ensures var before, after := After(AttemptWith(a, models), c0, used[..i]), After(AttemptWith(a, models), c0, used);
            before.messages <= after.messages && before.toolResults.Keys <= after.toolResults.Keys
    decreases |used|
  {
    var op := AttemptWith(a, models);
    if i < |used| {
      var init := used[..|used| - 1];
      assert used[..i] == init[..i];
      AttemptsCarryOver(a, models, c0, init, i);
      var s := After(op, c0, init);
      assert CyclesSoFar(a, s, 0, s, []);
      CyclesGrow(a, models(used[|used| - 1]), s, 0, s, []);
    } else {
      assert used[..i] == used;
    }
  }

  /** A run that ends in success returns, besides what its last attempt
    * recorded, every tool result recorded by the attempts that failed before it. */
  lemma SuccessKeepsEarlierResults<E>(a: Agent<E>, models: string -> Model, c0: Conv<E>, used: seq<string>, r: Result<AgentOutput>)
    requires Reported(AttemptWith(a, models), c0, used, r) && r.Ok?
    ensures forall i | 0 <= i < |used| :: After(AttemptWith(a, models), c0, used[..i]).toolResults.Keys <= r.value.toolResults.Keys
  {
    var op := AttemptWith(a, models);
    var n := |used| - 1;
    var s := After(op, c0, used[..n]);
    assert CyclesSoFar(a, s, 0, s, []);
    CyclesGrow(a, models(used[n]), s, 0, s, []);
    assert r.value.toolResults == After(op, c0, used).toolResults by {
      assert used[..n + 1] == used;
    }
    forall i | 0 <= i < |used| ensures After(op, c0, used[..i]).toolResults.Keys <= r.value.toolResults.Keys {
      AttemptsCarryOver(a, models, c0, used, i);
    }
  }

  /** The cycles of one attempt, as runAgent's loop runs them. */
  method RunCycles<E>(a: Agent<E>, model: Model, conv0: Conv<E>) returns (out: AttemptOut<E>)
    ensures out == Cycles(a, model, 0, conv0, [])
  {
    var conv, replies := conv0, [];
    var cycle := 0;
    while cycle < MaxCycles
      invariant 0 <= cycle <= MaxCycles
      invariant Cycles(a, model, 0, conv0, []) == Cycles(a, model, cycle, conv, replies)
      decreases MaxCycles - cycle
    {
      if a.stream && cycle == 0 {
        return AttemptOut(StreamResult(model.streamed(conv.messages), conv.toolResults), conv, replies);
      }
      var answer := model.complete(conv.messages);
      if answer.Threw? {
        return AttemptOut(Threw(answer.status, answer.message), conv, replies);
      }
      var reply := answer.value;
      var heard := conv.(messages := conv.messages + [AssistantMessage(reply)]);
      replies := replies + [reply];
      if reply.toolCalls == [] {
        return AttemptOut(Succeeded(AgentOutput(ContentOrEmpty(reply.content), conv.toolResults)), heard, replies);
      }
      if a.exec.None? {
        return AttemptOut(Threw(None, NoExecutorError(a.name)), heard, replies);
      }
      var rd := RunTools(conv.executor, conv.toolResults, reply.toolCalls, a.exec.value, a.parse, a.stringify);
      conv := Conv(heard.messages + rd.answers, rd.results, rd.executor);
      if rd.error.Some? {
        return AttemptOut(Threw(None, rd.error.value), conv, replies);
      }
      cycle := cycle + 1;
    }
    return AttemptOut(Threw(None, MaxCyclesError(a.name)), conv, replies);
  }

  /** runAgent: the retry over the key pool of attempts that share one
    * conversation, one tool-result record and one executor, whose state
    * starts as `e0`. `models(key)` is the client of a key; the run returns the
    * result, the keys it used and what the attempts left behind. */
  method RunAgent<E>(km: KM.KeyManager, config: Config.AgentConfig, userMessage: string, history: seq<ChatMessage>,
                     stream: bool, exec: Option<Exec<E>>, parse: string -> Result<Json>, stringify: Json -> string,
                     models: string -> Model, e0: E, now: nat)
    returns (r: Result<AgentOutput>, used: seq<string>, conv: Conv<E>)
    requires km.Valid()
    modifies km
    ensures km.Valid() && km.keys == old(km.keys)
    ensures |used| <= |km.keys| && forall i | 0 <= i < |used| :: used[i] in km.keys
    ensures var op := AttemptWith(Agent(config.name, stream, exec, parse, stringify), models);
            && conv == After(op, StartConv(config, history, userMessage, e0), used)
            && Reported(op, StartConv(config, history, userMessage, e0), used, r)
    ensures r.Ok? ==> r.value.toolResults == conv.toolResults
    ensures StartConv(config, history, userMessage, e0).messages <= conv.messages
    ensures |km.keys| > 0 && used == [] ==> r == Err(KM.ExhaustedError) && NoneHealthy(old(km.keys), old(km.metrics))
    ensures var op := AttemptWith(Agent(config.name, stream, exec, parse, stringify), models);
            var start := StartConv(config, history, userMessage, e0);
            |used| > 0 && Tried(op, start, used, |used| - 1).Threw? && Retriable(Tried(op, start, used, |used| - 1).status) ==>
              r == Err(KM.ExhaustedError) && NoneHealthy(km.keys, km.metrics)
  {
    var a := Agent(config.name, stream, exec, parse, stringify);
    var start := StartConv(config, history, userMessage, e0);
    r, used, conv := ExecuteWithRetry(km, AttemptWith(a, models), start, now);
    AttemptsCarryOver(a, models, start, used, 0);
    assert used[..0] == [];
    if r.Ok? {
      var op := AttemptWith(a, models);
      var n := |used| - 1;
      var s := After(op, start, used[..n]);
      assert CyclesSoFar(a, s, 0, s, []);
      CyclesGrow(a, models(used[n]), s, 0, s, []);
      assert used[..n + 1] == used;
    }
  }

  // ---------------------------------------------------------------------
  // The assembly line

  datatype Event =
    | Status(message: string)
    | OrchestratorResult(data: Json)
    | SqlResult(query: string, results: Option<Json>)
    | PythonResult(code: string, results: Option<Json>)
    | FinalResponse(text: string, classification: Option<Json>)

  /** The events the stream yielded, the agents it ran in order, and what it finally threw. */
  datatype Stream = Stream(events: seq<Event>, agents: seq<string>, failure: Option<string>)

  /** The line between stages: events and agents so far, the analysis results
    * gathered, the latest agent output, and the error that stopped it. */
  datatype Progress = Progress(events: seq<Event>, agents: seq<string>, context: Obj, last: string, failure: Option<string>)

  const AnalyzingStatus := "Analyzing query type..."
  const SqlStatus := "Generating and executing SQL query..."
  const PythonStatus := "Performing statistical analysis with Python..."
  const ExplainStatus := "Drafting explanation..."
  const ComposeStatus := "Synthesizing final answer..."
  const NullClassificationError := "Cannot read properties of null (reading 'classification')"

  /** The orchestrator's reply read as JSON; text that is not JSON becomes an
    * EXPLAIN_ONLY classification whose reasoning is the text. */
  function ParseClassification(parse: string -> Result<Json>, content: string): Json
  {
    match parse(content)
    case Ok(c) => c
    case Err(_) => JObj([("classification", JStr("EXPLAIN_ONLY")), ("reasoning", JStr(content))])
  }

  predicate ClassIs(cls: Option<Json>, name: string)
  {
    cls == Some(JStr(name))
  }

  predicate SqlRoute(cls: Option<Json>)
  {
    ClassIs(cls, "SQL_ONLY") || ClassIs(cls, "SQL_THEN_PY")
  }

  predicate PyRoute(cls: Option<Json>)
  {
    ClassIs(cls, "PY_ONLY") || ClassIs(cls, "SQL_THEN_PY")
  }

  predicate ExplainRoute(cls: Option<Json>)
  {
    ClassIs(cls, "EXPLAIN_ONLY")
  }

  /** `toolResults.<name>`, undefined when the tool never ran. */
  function ToolResultOf(out: AgentOutput, name: string): Option<Json>
  {
    if name in out.toolResults then out.toolResults[name] else None
  }

  /** The event that reports the output of `agent`. */
  predicate Reports(e: Event, agent: string)
  {
    match e
    case OrchestratorResult(_) => agent == "orchestrator"
    case SqlResult(_, _) => agent == "sql_agent"
    case PythonResult(_, _) => agent == "python_agent"
    case FinalResponse(_, _) => agent == "explainer" || agent == "composer"
    case Status(_) => false
  }

  /** Each agent is announced by a status event and, once it has succeeded,
    * reported by the event after it; only a failure leaves the last agent unreported. */
  predicate Interleaved(events: seq<Event>, agents: seq<string>, failure: Option<string>)
  {
    && (forall i | 0 <= i < |agents| && 2 * i < |events| :: events[2 * i].Status?)
    && (forall i | 0 <= i < |agents| && 2 * i + 1 < |events| :: Reports(events[2 * i + 1], agents[i]))
    && (failure.None? ==> |events| == 2 * |agents|)
    && (failure.Some? ==> 2 * |agents| - 1 <= |events| <= 2 * |agents|)
  }

  /** Announcing one more agent, and reporting it when it succeeded, keeps the interleaving. */
  lemma InterleavedStep(events: seq<Event>, agents: seq<string>, status: string, agent: string,
                        report: Option<Event>, failure: Option<string>)
    requires Interleaved(events, agents, None)
    requires report.Some? ==> Reports(report.value, agent)
    requires report.None? <==> failure.Some?
    ensures Interleaved(events + [Status(status)] + (if report.Some? then [report.value] else []),
                        agents + [agent], failure)
  {
    var es := events + [Status(status)] + (if report.Some? then [report.value] else []);
    var ags := agents + [agent];
    assert forall i | 0 <= i < |agents| :: ags[i] == agents[i];
    assert forall i | 0 <= i < |events| :: es[i] == events[i];
    assert es[2 * |agents|] == Status(status);
    assert report.Some? ==> es[2 * |agents| + 1] == report.value;
  }

  function SqlStage(p: Progress, cls: Option<Json>, userMessage: string, reasoning: string,
                    run: (string, string) -> Result<AgentOutput>): (q: Progress)
    ensures q.agents == p.agents + (if p.failure.None? && SqlRoute(cls) then ["sql_agent"] else [])
    ensures p.events <= q.events
    ensures p.failure.Some? ==> q == p
  {
    if p.failure.Some? || !SqlRoute(cls) then p
    else
      var events := p.events + [Status(SqlStatus)];
      var agents := p.agents + ["sql_agent"];
      match run("sql_agent", "User Query: " + userMessage + "\n\nReasoning: " + reasoning)
      case Err(e) =>
        p.(events := events, agents := agents, failure := Some(e))
      case Ok(out) =>
        var report := SqlResult(out.content, ToolResultOf(out, "run_sql"));
        Progress(events + [report], agents, Put(p.context, "sql_result", JStr(out.content)), out.content, None)
  }

  function PythonStage(p: Progress, cls: Option<Json>, userMessage: string,
                       run: (string, string) -> Result<AgentOutput>): (q: Progress)
    ensures q.agents == p.agents + (if p.failure.None? && PyRoute(cls) then ["python_agent"] else [])
    ensures p.events <= q.events
    ensures p.failure.Some? ==> q == p
  {
    if p.failure.Some? || !PyRoute(cls) then p
    else
      var events := p.events + [Status(PythonStatus)];
      var agents := p.agents + ["python_agent"];
      match run("python_agent", "User Query: " + userMessage + "\n\nContext: " + p.last)
      case Err(e) =>
        p.(events := events, agents := agents, failure := Some(e))
      case Ok(out) =>
        var report := PythonResult(out.content, ToolResultOf(out, "run_python"));
        Progress(events + [report], agents, Put(p.context, "python_result", JStr(out.content)), out.content, None)
  }

  function FinalAgent(cls: Option<Json>): string
  {
    if ExplainRoute(cls) then "explainer" else "composer"
  }

  function FinalStage(p: Progress, cls: Option<Json>, userMessage: string, reasoning: string,
                      run: (string, string) -> Result<AgentOutput>, stringify: Json -> string): (s: Stream)
    ensures s.agents == p.agents + (if p.failure.None? then [FinalAgent(cls)] else [])
    ensures p.events <= s.events
    ensures p.failure.Some? ==> s == Stream(p.events, p.agents, p.failure)
    ensures s.failure.None? ==> |s.events| > 0 && s.events[|s.events| - 1].FinalResponse?
                                && s.events[|s.events| - 1].classification == cls
  {
    if p.failure.Some? then Stream(p.events, p.agents, p.failure)
    else
      var status := if ExplainRoute(cls) then ExplainStatus else ComposeStatus;
      var events := p.events + [Status(status)];
      var agents := p.agents + [FinalAgent(cls)];
      var message := if ExplainRoute(cls) then "Explain this to the user: " + reasoning
                     else "Synthesize a final response for the user.\n\nUser Query: " + userMessage
                          + "\n\nAnalysis Results: " + stringify(JObj(p.context));
      match run(FinalAgent(cls), message)
      case Err(e) =>
        Stream(events, agents, Some(e))
      case Ok(out) =>
        Stream(events + [FinalResponse(out.content, cls)], agents, None)
  }

  /** The agents a completed stream runs for a classification. */
  function Route(cls: Option<Json>): seq<string>
  {
    ["orchestrator"] + (if SqlRoute(cls) then ["sql_agent"] else []) + (if PyRoute(cls) then ["python_agent"] else [])
    + [FinalAgent(cls)]
  }

  /** The orchestrator's parsed output, when it ran. */
  function ParsedOutput(userMessage: string, run: (string, string) -> Result<AgentOutput>,
                        parse: string -> Result<Json>): Json
    requires run("orchestrator", userMessage).Ok?
  {
    ParseClassification(parse, run("orchestrator", userMessage).value.content)
  }

  /** The stages after the classification: SQL, Python, then the final agent. */
  function Pipeline(start: Progress, cls: Option<Json>, userMessage: string, reasoning: string,
                    run: (string, string) -> Result<AgentOutput>, stringify: Json -> string): (s: Stream)
    ensures start.events <= s.events
    ensures start.agents <= s.agents
    ensures s.failure.None? ==> |s.events| > 0 && s.events[|s.events| - 1].FinalResponse?
                                && s.events[|s.events| - 1].classification == cls
  {
    var afterSql := SqlStage(start, cls, userMessage, reasoning, run);
    var afterPython := PythonStage(afterSql, cls, userMessage, run);
    FinalStage(afterPython, cls, userMessage, reasoning, run, stringify)
  }

  lemma PipelineInterleaved(start: Progress, cls: Option<Json>, userMessage: string, reasoning: string,
                            run: (string, string) -> Result<AgentOutput>, stringify: Json -> string)
    requires Interleaved(start.events, start.agents, start.failure)
    ensures var s := Pipeline(start, cls, userMessage, reasoning, run, stringify);
            Interleaved(s.events, s.agents, s.failure)
  {
    SqlStageInterleaved(start, cls, userMessage, reasoning, run);
    var afterSql := SqlStage(start, cls, userMessage, reasoning, run);
    PythonStageInterleaved(afterSql, cls, userMessage, run);
    FinalStageInterleaved(PythonStage(afterSql, cls, userMessage, run), cls, userMessage, reasoning, run, stringify);
  }

  /** The SQL agent ran exactly on the SQL routes, the Python agent only on
    * the Python routes, and a completed line ran the whole route of `cls` and
    * reported `cls` with its final response. */
  predicate RoutedAs(s: Stream, cls: Option<Json>)
  {
    && ("sql_agent" in s.agents <==> SqlRoute(cls))
    && ("python_agent" in s.agents ==> PyRoute(cls))
    && (s.failure.None? ==> && s.agents == Route(cls) && |s.events| > 0
                            && s.events[|s.events| - 1].FinalResponse?
                            && s.events[|s.events| - 1].classification == cls)
  }

  /** From a line that has run only the orchestrator, the SQL agent runs exactly
    * on the SQL routes, the Python agent only on the Python routes, and a
    * completed line has run the whole route of the classification. */
  lemma PipelineRouting(start: Progress, cls: Option<Json>, userMessage: string, reasoning: string,
                        run: (string, string) -> Result<AgentOutput>, stringify: Json -> string)
    requires start.agents == ["orchestrator"] && start.failure.None?
    ensures RoutedAs(Pipeline(start, cls, userMessage, reasoning, run, stringify), cls)
  {
    var afterSql := SqlStage(start, cls, userMessage, reasoning, run);
    var afterPython := PythonStage(afterSql, cls, userMessage, run);
    var s := FinalStage(afterPython, cls, userMessage, reasoning, run, stringify);
    var py := afterSql.failure.None? && PyRoute(cls);
    var fin := if afterPython.failure.None? then Some(FinalAgent(cls)) else None;
    assert s.agents == RanAgents(SqlRoute(cls), py, fin);
    RanAgentsMembers(SqlRoute(cls), py, fin);
    if s.failure.None? {
      assert afterPython.failure.None? && afterSql.failure.None?;
    }
  }

  /** The agents of a line that ran the SQL and Python agents as the flags say,
    * then the final agent if it was reached. */
  function RanAgents(sql: bool, py: bool, fin: Option<string>): seq<string>
  {
    ["orchestrator"] + (if sql then ["sql_agent"] else []) + (if py then ["python_agent"] else [])
    + (if fin.Some? then [fin.value] else [])
  }

  /** A specialist is among the agents exactly when its flag is set, and a
    * completed route is the route of the classification. */
  lemma RanAgentsMembers(sql: bool, py: bool, fin: Option<string>)
    requires fin.Some? ==> fin.value == "explainer" || fin.value == "composer"
    ensures "sql_agent" in RanAgents(sql, py, fin) <==> sql
    ensures "python_agent" in RanAgents(sql, py, fin) <==> py
    ensures forall cls | SqlRoute(cls) == sql && PyRoute(cls) == py && fin == Some(FinalAgent(cls)) ::
              RanAgents(sql, py, fin) == Route(cls)
  {
  }

  /** orchestrateStream: load the DNA, classify, run the specialists the
    * classification asks for, then exactly one final agent. Persistence calls
    * are awaited and their failures caught and logged, so they never stop the
    * stream; they are not modelled. */
  function OrchestrateStream(userMessage: string, dnaLoad: Result<()>,
                             run: (string, string) -> Result<AgentOutput>,
                             parse: string -> Result<Json>, stringify: Json -> string): (s: Stream)
    ensures dnaLoad.Err? ==> s == Stream([], [], Some(dnaLoad.error))
    ensures dnaLoad.Ok? ==> |s.agents| >= 1 && s.agents[0] == "orchestrator"
                            && |s.events| >= 1 && s.events[0] == Status(AnalyzingStatus)
    ensures dnaLoad.Ok? && run("orchestrator", userMessage).Ok? ==>
              |s.events| >= 2 && s.events[1] == OrchestratorResult(ParsedOutput(userMessage, run, parse))
    ensures s.failure.None? ==> |s.events| > 0 && s.events[|s.events| - 1].FinalResponse?
  {
    if dnaLoad.Err? then Stream([], [], Some(dnaLoad.error))
    else
      var e0 := [Status(AnalyzingStatus)];
      match run("orchestrator", userMessage)
      case Err(e) => Stream(e0, ["orchestrator"], Some(e))
      case Ok(orch) => Classified(ParseClassification(parse, orch.content), orch.content, userMessage, run, stringify)
  }

  /** The line once the orchestrator's output `c` is yielded: a null output
    * throws on reading its classification, any other runs the pipeline. */
  function Classified(c: Json, content: string, userMessage: string,
                      run: (string, string) -> Result<AgentOutput>, stringify: Json -> string): (s: Stream)
    ensures |s.agents| >= 1 && s.agents[0] == "orchestrator"
    ensures |s.events| >= 2 && s.events[..2] == [Status(AnalyzingStatus), OrchestratorResult(c)]
    ensures s.failure.None? ==> s.events[|s.events| - 1].FinalResponse?
  {
    var e1 := [Status(AnalyzingStatus), OrchestratorResult(c)];
    if c == JNull then Stream(e1, ["orchestrator"], Some(NullClassificationError))
    else
      Pipeline(Progress(e1, ["orchestrator"], [("classification", c)], content, None),
               Prop(c, "classification").value, userMessage, Display(Prop(c, "reasoning").value), run, stringify)
  }

  lemma SqlStageInterleaved(p: Progress, cls: Option<Json>, userMessage: string, reasoning: string,
                            run: (string, string) -> Result<AgentOutput>)
    requires Interleaved(p.events, p.agents, p.failure)
    ensures var q := SqlStage(p, cls, userMessage, reasoning, run); Interleaved(q.events, q.agents, q.failure)
  {
    if p.failure.None? && SqlRoute(cls) {
      var out := run("sql_agent", "User Query: " + userMessage + "\n\nReasoning: " + reasoning);
      var report := if out.Ok? then Some(SqlResult(out.value.content, ToolResultOf(out.value, "run_sql"))) else None;
      InterleavedStep(p.events, p.agents, SqlStatus, "sql_agent", report, if out.Ok? then None else Some(out.error));
      assert p.events + [Status(SqlStatus)] + [] == p.events + [Status(SqlStatus)];
    }
  }

  lemma PythonStageInterleaved(p: Progress, cls: Option<Json>, userMessage: string,
                               run: (string, string) -> Result<AgentOutput>)
    requires Interleaved(p.events, p.agents, p.failure)
    ensures var q := PythonStage(p, cls, userMessage, run); Interleaved(q.events, q.agents, q.failure)
  {
    if p.failure.None? && PyRoute(cls) {
      var out := run("python_agent", "User Query: " + userMessage + "\n\nContext: " + p.last);
      var report := if out.Ok? then Some(PythonResult(out.value.content, ToolResultOf(out.value, "run_python"))) else None;
      InterleavedStep(p.events, p.agents, PythonStatus, "python_agent", report, if out.Ok? then None else Some(out.error));
      assert p.events + [Status(PythonStatus)] + [] == p.events + [Status(PythonStatus)];
    }
  }

  lemma FinalStageInterleaved(p: Progress, cls: Option<Json>, userMessage: string, reasoning: string,
                              run: (string, string) -> Result<AgentOutput>, stringify: Json -> string)
    requires Interleaved(p.events, p.agents, p.failure)
    ensures var s := FinalStage(p, cls, userMessage, reasoning, run, stringify); Interleaved(s.events, s.agents, s.failure)
  {
    if p.failure.None? {
      var status := if ExplainRoute(cls) then ExplainStatus else ComposeStatus;
      var message := if ExplainRoute(cls) then "Explain this to the user: " + reasoning
                     else "Synthesize a final response for the user.\n\nUser Query: " + userMessage
                          + "\n\nAnalysis Results: " + stringify(JObj(p.context));
      match run(FinalAgent(cls), message)
      case Ok(out) =>
        InterleavedStep(p.events, p.agents, status, FinalAgent(cls), Some(FinalResponse(out.content, cls)), None);
      case Err(e) =>
        InterleavedStep(p.events, p.agents, status, FinalAgent(cls), None, Some(e));
        assert p.events + [Status(status)] + [] == p.events + [Status(status)];
    }
  }

  /** Every stream alternates announcements and reports, one pair per agent,
    * and a stream that did not throw ends with the final response. */
  lemma StreamInterleaved(userMessage: string, dnaLoad: Result<()>, run: (string, string) -> Result<AgentOutput>,
                          parse: string -> Result<Json>, stringify: Json -> string)
    ensures var s := OrchestrateStream(userMessage, dnaLoad, run, parse, stringify);
            Interleaved(s.events, s.agents, s.failure)
            && (s.failure.None? ==> s.events[|s.events| - 1].FinalResponse?)
  {
    if dnaLoad.Ok? && run("orchestrator", userMessage).Ok? {
      var orch := run("orchestrator", userMessage).value;
      ClassifiedInterleaved(ParseClassification(parse, orch.content), orch.content, userMessage, run, stringify);
    }
  }

  lemma ClassifiedInterleaved(c: Json, content: string, userMessage: string,
                              run: (string, string) -> Result<AgentOutput>, stringify: Json -> string)
    ensures var s := Classified(c, content, userMessage, run, stringify);
            Interleaved(s.events, s.agents, s.failure)
            && (s.failure.None? ==> s.events[|s.events| - 1].FinalResponse?)
  {
    var e1 := [Status(AnalyzingStatus), OrchestratorResult(c)];
    assert Interleaved(e1, ["orchestrator"], None);
    if c != JNull {
      PipelineInterleaved(Progress(e1, ["orchestrator"], [("classification", c)], content, None),
                          Prop(c, "classification").value, userMessage, Display(Prop(c, "reasoning").value), run, stringify);
    }
  }

  /** A null classification throws right after the orchestrator result is yielded. */
  lemma NullClassificationStops(userMessage: string, run: (string, string) -> Result<AgentOutput>,
                                parse: string -> Result<Json>, stringify: Json -> string)
    requires run("orchestrator", userMessage).Ok? && ParsedOutput(userMessage, run, parse) == JNull
    ensures OrchestrateStream(userMessage, Ok(()), run, parse, stringify)
            == Stream([Status(AnalyzingStatus), OrchestratorResult(JNull)], ["orchestrator"], Some(NullClassificationError))
  {
  }

  /** The SQL agent runs exactly for SQL_ONLY and SQL_THEN_PY, the Python agent
    * only for PY_ONLY and SQL_THEN_PY; a stream that completes runs the route of
    * its classification and reports that classification last. */
  lemma StreamRouting(userMessage: string, run: (string, string) -> Result<AgentOutput>,
                      parse: string -> Result<Json>, stringify: Json -> string)
    requires run("orchestrator", userMessage).Ok? && ParsedOutput(userMessage, run, parse) != JNull
    ensures RoutedAs(OrchestrateStream(userMessage, Ok(()), run, parse, stringify),
                     Prop(ParsedOutput(userMessage, run, parse), "classification").value)
  {
    var orch := run("orchestrator", userMessage).value;
    var c := ParsedOutput(userMessage, run, parse);
    var e1 := [Status(AnalyzingStatus), OrchestratorResult(c)];
    PipelineRouting(Progress(e1, ["orchestrator"], [("classification", c)], orch.content, None),
                    Prop(c, "classification").value, userMessage, Display(Prop(c, "reasoning").value), run, stringify);
  }

  /** Exactly one final-stage agent runs: the explainer for EXPLAIN_ONLY, the
    * composer for every other value, missing and unknown ones included. */
  lemma ExactlyOneFinalAgent(cls: Option<Json>)
    ensures ("explainer" in Route(cls)) != ("composer" in Route(cls))
    ensures "explainer" in Route(cls) <==> ExplainRoute(cls)
  {
  }

  /** When both specialists run, SQL runs first. */
  lemma SqlBeforePython(cls: Option<Json>)
    requires "python_agent" in Route(cls) && "sql_agent" in Route(cls)
    ensures Route(cls) == ["orchestrator", "sql_agent", "python_agent", "composer"]
  {
  }

  /** Orchestrator output that is not JSON is explained: only the explainer
    * follows, and the final event carries EXPLAIN_ONLY. */
  lemma UnparsableIsExplained(userMessage: string, run: (string, string) -> Result<AgentOutput>,
                              parse: string -> Result<Json>, stringify: Json -> string)
    requires run("orchestrator", userMessage).Ok? && parse(run("orchestrator", userMessage).value.content).Err?
    ensures var s := OrchestrateStream(userMessage, Ok(()), run, parse, stringify);
            s.failure.None? ==> s.agents == ["orchestrator", "explainer"]
                                && s.events[|s.events| - 1].classification == Some(JStr("EXPLAIN_ONLY"))
  {
    var c := ParsedOutput(userMessage, run, parse);
    assert c.members[..1] == [("classification", JStr("EXPLAIN_ONLY"))];
    assert Lookup(c.members[..1], "classification") == Some(JStr("EXPLAIN_ONLY"));
    assert Prop(c, "classification").value == Some(JStr("EXPLAIN_ONLY"));
  }
}
