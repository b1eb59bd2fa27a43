/** The execution step of a node, as pure functions.

    One call of NodeBase.ExecuteNode is described here as a value: which work
    tasks it invokes, in which order and with which input, which downstream
    activations it dispatches, whether it invokes the plugin's prepare hook and
    what it leaves in the node's initialization flag. The class NodeBase (module
    NodeDefinition) is proved to behave as these functions say; the lemmas below
    state what the engine promises about them. The functions are generic in the
    type N of node references, so that they do not depend on the class. */
module Execution {

  /** A JSON value, as carried between nodes; the engine never looks inside. */
  datatype JsonValue =
    | JNull
    | JBool(b: bool)
    | JNumber(n: int)
    | JString(s: string)
    | JArray(items: seq<JsonValue>)
    | JObject(fields: map<string, JsonValue>)

  /** The payload type of ExecuteNode and of every work task. */
  type JsonObject = map<string, JsonValue>

  /** Starter nodes loop until cancellation; Standard nodes run once per activation. */
  datatype NodeType = Starter | Standard

  /** What one invocation of a plugin work task did: returned a payload, or threw. */
  datatype TaskOutcome = Returned(value: JsonObject) | Threw

  /** The world outside the engine, as one ExecuteNode call observes it.
      - cancelAfter: how many evaluations of the loop condition still find the
        shared cancellation token not cancelled (0: cancelled on entry);
      - prepareThrows: whether the plugin's prepare hook throws if this call invokes it;
      - run(pass, index, input): the outcome of work task `index` when it is
        invoked in pass `pass` of this call with `input`. */
  datatype Oracle = Oracle(
    cancelAfter: nat,
    prepareThrows: bool,
    run: (nat, nat, JsonObject) -> TaskOutcome)

  /** How ExecuteNode ends: normally, or with the prepare hook's exception escaping. */
  datatype ExecOutcome = Completed | PrepareFaulted

  /** One invocation of a work task. */
  datatype TaskCall = TaskCall(pass: nat, index: nat, input: JsonObject)

  /** One fire-and-forget call `target.ExecuteNode(payload)` made through output port `port`. */
  datatype Dispatch<N> = Dispatch(target: N, port: nat, payload: JsonObject)

  /** An output port: its identifier and the downstream nodes wired to it, in order. */
  datatype OutputPort<N> = OutputPort(id: string, nextNodes: seq<N>)

  /** Everything one ExecuteNode call does, seen from outside. */
  datatype StepResult<N> = StepResult(
    outcome: ExecOutcome,
    initialized: bool,
    prepareInvoked: bool,
    calls: seq<TaskCall>,
    dispatches: seq<Dispatch<N>>)

  /** Number of passes through the loop body: the loop stops at the first
      condition check that sees cancellation, and after one pass of a node
      that is not a Starter. */
  function PassCount(nodeType: NodeType, cancelAfter: nat): nat
  {
    if cancelAfter == 0 then 0
    else if nodeType == Standard then 1
    else cancelAfter
  }

  /** The activations TriggerNextNodes makes: one per downstream node of the
      port, in the port's order, all carrying the same payload. */
  function Route<N>(targets: seq<N>, port: nat, payload: JsonObject): (r: seq<Dispatch<N>>)
    ensures |r| == |targets|
    ensures forall k :: 0 <= k < |r| ==> r[k] == Dispatch(targets[k], port, payload)
  {
    seq(|targets|, k requires 0 <= k < |targets| => Dispatch(targets[k], port, payload))
  }

  /** What task `index` of pass `pass` sends downstream: nothing when it
      throws; otherwise its result goes to the port with the same index. When
      no such port exists, looking the port up throws inside the same
      try-block and nothing is sent. */
  function TaskDispatches<N>(ports: seq<OutputPort<N>>, pass: nat, index: nat, input: JsonObject,
                             run: (nat, nat, JsonObject) -> TaskOutcome): seq<Dispatch<N>>
  {
    match run(pass, index, input)
    case Threw => []
    case Returned(v) => if index < |ports| then Route(ports[index].nextNodes, index, v) else []
  }

  /** The dispatches of tasks 0 .. n-1 of one pass, in task order. */
  function PassDispatches<N>(ports: seq<OutputPort<N>>, pass: nat, n: nat, input: JsonObject,
                             run: (nat, nat, JsonObject) -> TaskOutcome): seq<Dispatch<N>>
  {
    if n == 0 then []
    else PassDispatches(ports, pass, n - 1, input, run) + TaskDispatches(ports, pass, n - 1, input, run)
  }

  /** Appending task n's dispatches extends a pass from n tasks to n + 1. */
  lemma PassDispatchesNext<N>(ports: seq<OutputPort<N>>, pass: nat, n: nat, input: JsonObject,
                              run: (nat, nat, JsonObject) -> TaskOutcome, done: seq<Dispatch<N>>, ds: seq<Dispatch<N>>)
    requires done == PassDispatches(ports, pass, n, input, run)
    requires ds == TaskDispatches(ports, pass, n, input, run)
    ensures done + ds == PassDispatches(ports, pass, n + 1, input, run)
  {
  }

  /** The dispatches of passes 0 .. passes-1, in pass order. */
  function RunDispatches<N>(ports: seq<OutputPort<N>>, passes: nat, n: nat, input: JsonObject,
                            run: (nat, nat, JsonObject) -> TaskOutcome): seq<Dispatch<N>>
  {
    if passes == 0 then []
    else RunDispatches(ports, passes - 1, n, input, run) + PassDispatches(ports, passes - 1, n, input, run)
  }

  /** The task invocations of one pass: every task, in declared order, on the same input. */
  function PassCalls(pass: nat, n: nat, input: JsonObject): seq<TaskCall>
  {
    if n == 0 then [] else PassCalls(pass, n - 1, input) + [TaskCall(pass, n - 1, input)]
  }

  /** The task invocations of passes 0 .. passes-1. */
  function RunCalls(passes: nat, n: nat, input: JsonObject): seq<TaskCall>
  {
    if passes == 0 then [] else RunCalls(passes - 1, n, input) + PassCalls(passes - 1, n, input)
  }

  /** The effect of the first `k` passes of a call in which the prepare hook
      did not throw. Step is this at the call's pass count (StepProgress);
      the loop of NodeBase.RunPasses keeps it as its invariant. */
  function Progress<N>(enabled: bool, initialized: bool, ports: seq<OutputPort<N>>, n: nat, input: JsonObject,
                       run: (nat, nat, JsonObject) -> TaskOutcome, k: nat): StepResult<N>
  {
    if enabled && k > 0 then
      StepResult(Completed, true, !initialized, RunCalls(k, n, input), RunDispatches(ports, k, n, input, run))
    else StepResult(Completed, initialized, false, [], [])
  }

  /** One more pass appends that pass's calls and dispatches to an enabled
      call's progress and leaves a disabled call's progress alone. */
  lemma ProgressNext<N>(enabled: bool, initialized: bool, ports: seq<OutputPort<N>>, n: nat, input: JsonObject,
                        run: (nat, nat, JsonObject) -> TaskOutcome, k: nat)
    ensures var p := Progress(enabled, initialized, ports, n, input, run, k);
            Progress(enabled, initialized, ports, n, input, run, k + 1)
            == if enabled then
                 StepResult(Completed, true, !initialized, p.calls + PassCalls(k, n, input),
                            p.dispatches + PassDispatches(ports, k, n, input, run))
               else p
  {
    if enabled && k == 0 {
      assert RunCalls(1, n, input) == [] + PassCalls(0, n, input);
      assert RunDispatches(ports, 1, n, input, run) == [] + PassDispatches(ports, 0, n, input, run);
    }
  }

  /** One ExecuteNode call on a node of type `nodeType` with `n` work tasks.
      IsEnabled does not change during the call, so either every pass is a
      no-op or the first pass initializes the node if needed; a failing
      prepare hook ends the call before any task runs. */
  function Step<N>(nodeType: NodeType, enabled: bool, initialized: bool, ports: seq<OutputPort<N>>,
                   n: nat, input: JsonObject, oracle: Oracle): (r: StepResult<N>)
    // a disabled node runs nothing, sends nothing and keeps its flag
    ensures !enabled ==> r == StepResult(Completed, initialized, false, [], [])
    // a token cancelled on entry: no pass begins
    ensures oracle.cancelAfter == 0 ==> r == StepResult(Completed, initialized, false, [], [])
    // the prepare hook runs only on a node not yet initialized, and only inside the enabled branch
    ensures r.prepareInvoked ==> enabled && !initialized
    // and it does run on such a node once a pass begins: if it returns the
    // node ends initialized, if it throws the call faults
    ensures enabled && oracle.cancelAfter > 0 && !initialized ==> r.prepareInvoked
    ensures enabled && oracle.cancelAfter > 0 && (initialized || !oracle.prepareThrows) ==>
              r.initialized && r.outcome == Completed
    ensures enabled && oracle.cancelAfter > 0 && !initialized && oracle.prepareThrows ==> r.outcome == PrepareFaulted
    // once initialized, a node stays initialized
    ensures initialized ==> r.initialized && r.outcome == Completed
    // a throwing prepare hook leaves the flag false and runs no task
    ensures r.outcome == PrepareFaulted <==> r.prepareInvoked && !r.initialized
    ensures r.outcome == PrepareFaulted ==> r.calls == [] && r.dispatches == []
    // tasks run only on an initialized node
    ensures r.calls != [] ==> r.initialized
    // a node that is not a Starter makes at most one pass
    ensures nodeType == Standard ==> forall c :: c in r.calls ==> c.pass == 0
  {
    var passes := PassCount(nodeType, oracle.cancelAfter);
    if passes == 0 || !enabled then
      StepResult(Completed, initialized, false, [], [])
    else if !initialized && oracle.prepareThrows then
      StepResult(PrepareFaulted, false, true, [], [])
    else
      RunCallsShape(passes, n, input);
      StepResult(Completed, true, !initialized,
                 RunCalls(passes, n, input), RunDispatches(ports, passes, n, input, oracle.run))
  }

  /** Unless the prepare hook throws in the first pass, a call has the effect
      of all its passes. */
  lemma StepProgress<N>(nodeType: NodeType, enabled: bool, initialized: bool, ports: seq<OutputPort<N>>,
                        n: nat, input: JsonObject, oracle: Oracle)
    requires enabled && !initialized && PassCount(nodeType, oracle.cancelAfter) > 0 ==> !oracle.prepareThrows
    ensures Step(nodeType, enabled, initialized, ports, n, input, oracle)
            == Progress(enabled, initialized, ports, n, input, oracle.run, PassCount(nodeType, oracle.cancelAfter))
  {
  }

  // ---------------------------------------------------------------------------
  // Task invocations

  /** Within a pass, task i is the i-th invocation, whatever the other tasks did. */
  lemma {:induction false} PassCallsInOrder(pass: nat, n: nat, input: JsonObject)
    ensures |PassCalls(pass, n, input)| == n
    ensures forall i :: 0 <= i < n ==> PassCalls(pass, n, input)[i] == TaskCall(pass, i, input)
  {
    if n > 0 {
      PassCallsInOrder(pass, n - 1, input);
    }
  }

  /** Over a whole call, every invocation receives the original input, names
      an existing task and belongs to a pass that began. */
  lemma {:induction false} RunCallsShape(passes: nat, n: nat, input: JsonObject)
    ensures forall c :: c in RunCalls(passes, n, input) ==> c.input == input && c.index < n && c.pass < passes
  {
    if passes > 0 {
      RunCallsShape(passes - 1, n, input);
      PassCallsInOrder(passes - 1, n, input);
    }
  }

  /** A call of `passes` passes invokes `passes` times `n` tasks. */
  lemma {:induction false} RunCallsCount(passes: nat, n: nat, input: JsonObject)
    ensures |RunCalls(passes, n, input)| == passes * n
  {
    if passes > 0 {
      RunCallsCount(passes - 1, n, input);
      PassCallsInOrder(passes - 1, n, input);
      assert (passes - 1) * n + n == passes * n;
    }
  }

  // ---------------------------------------------------------------------------
  // Routing

  /** The dispatches of `ds` that go through output port `j`, in order. */
  function OnPort<N>(ds: seq<Dispatch<N>>, j: nat): seq<Dispatch<N>>
  {
    if |ds| == 0 then []
    else if ds[0].port == j then [ds[0]] + OnPort(ds[1..], j)
    else OnPort(ds[1..], j)
  }

  lemma {:induction false} OnPortConcat<N>(a: seq<Dispatch<N>>, b: seq<Dispatch<N>>, j: nat)
    ensures OnPort(a + b, j) == OnPort(a, j) + OnPort(b, j)
  {
    if |a| > 0 {
      assert (a + b)[0] == a[0];
      assert (a + b)[1..] == a[1..] + b;
      OnPortConcat(a[1..], b, j);
    } else {
      assert a + b == b;
    }
  }

  lemma {:induction false} OnPortRoute<N>(targets: seq<N>, k: nat, v: JsonObject, j: nat)
    ensures OnPort(Route(targets, k, v), j) == if k == j then Route(targets, k, v) else []
  {
    if |targets| > 0 {
      OnPortRoute(targets[1..], k, v, j);
      assert Route(targets, k, v) == [Dispatch(targets[0], k, v)] + Route(targets[1..], k, v);
    }
  }

  /** What one task sends goes through its own port only. */
  lemma OnPortTask<N>(ports: seq<OutputPort<N>>, pass: nat, k: nat, input: JsonObject,
                      run: (nat, nat, JsonObject) -> TaskOutcome, j: nat)
    ensures OnPort(TaskDispatches(ports, pass, k, input, run), j)
         == if k == j then TaskDispatches(ports, pass, k, input, run) else []
  {
    match run(pass, k, input)
    case Threw =>
    case Returned(v) =>
      if k < |ports| {
        OnPortRoute(ports[k].nextNodes, k, v, j);
      }
  }

  /** A port no dispatch goes through receives nothing. */
  lemma {:induction false} OnPortNone<N>(ds: seq<Dispatch<N>>, j: nat)
    requires forall i :: 0 <= i < |ds| ==> ds[i].port != j
    ensures OnPort(ds, j) == []
  {
    if |ds| > 0 {
      OnPortNone(ds[1..], j);
    }
  }

  /** A port whose index is past the tasks of a pass receives nothing in it. */
  lemma PassDispatchesBeyond<N>(ports: seq<OutputPort<N>>, pass: nat, n: nat, input: JsonObject,
                                run: (nat, nat, JsonObject) -> TaskOutcome, j: nat)
    requires n <= j
    ensures OnPort(PassDispatches(ports, pass, n, input, run), j) == []
  {
    PassDispatchesSound(ports, pass, n, input, run);
    OnPortNone(PassDispatches(ports, pass, n, input, run), j);
  }

  /** Dispatches through other ports, appended or prepended, leave what a
      port receives unchanged. */
  lemma OnPortAppendNone<N>(a: seq<Dispatch<N>>, b: seq<Dispatch<N>>, j: nat)
    requires forall i :: 0 <= i < |b| ==> b[i].port != j
    ensures OnPort(a + b, j) == OnPort(a, j)
  {
    OnPortConcat(a, b, j);
    OnPortNone(b, j);
    assert OnPort(a, j) + [] == OnPort(a, j);
  }

  lemma OnPortPrependNone<N>(a: seq<Dispatch<N>>, b: seq<Dispatch<N>>, j: nat)
    requires forall i :: 0 <= i < |a| ==> a[i].port != j
    ensures OnPort(a + b, j) == OnPort(b, j)
  {
    OnPortConcat(a, b, j);
    OnPortNone(a, j);
    assert [] + OnPort(b, j) == OnPort(b, j);
  }

  /** Routing is index-aligned and failures are isolated: in one pass, output
      port j receives exactly what task j sends, and nothing from any other task. */
  lemma {:induction false} PassDispatchesOnPort<N>(ports: seq<OutputPort<N>>, pass: nat, n: nat, input: JsonObject,
                                                  run: (nat, nat, JsonObject) -> TaskOutcome, j: nat)
    requires j < n
    ensures OnPort(PassDispatches(ports, pass, n, input, run), j) == TaskDispatches(ports, pass, j, input, run)
  {
    var before: seq<Dispatch<N>> := PassDispatches(ports, pass, n - 1, input, run);
    var t := TaskDispatches(ports, pass, n - 1, input, run);
    if j < n - 1 {
      PassDispatchesOnPort(ports, pass, n - 1, input, run, j);
      TaskDispatchesSound(ports, pass, n - 1, input, run);
      OnPortAppendNone(before, t, j);
    } else {
      PassDispatchesSound(ports, pass, n - 1, input, run);
      OnPortPrependNone(before, t, j);
      OnPortTask(ports, pass, n - 1, input, run, j);
    }
  }

  /** Failure isolation within a pass: a throwing task's port receives nothing,
      and a task that returns sends its result to every node of its own port,
      in the port's order, whatever the other tasks did. */
  lemma TaskIsolation<N>(ports: seq<OutputPort<N>>, pass: nat, n: nat, input: JsonObject,
                         run: (nat, nat, JsonObject) -> TaskOutcome, j: nat)
    requires j < n
    ensures run(pass, j, input).Threw? ==> OnPort(PassDispatches(ports, pass, n, input, run), j) == []
    ensures run(pass, j, input).Returned? && j < |ports| ==>
              OnPort(PassDispatches(ports, pass, n, input, run), j)
              == Route(ports[j].nextNodes, j, run(pass, j, input).value)
  {
    PassDispatchesOnPort(ports, pass, n, input, run, j);
  }

  /** `d` goes to a node wired to output port `d.port` and carries the value
      task `d.port` returned in pass `pass`. */
  ghost predicate Delivers<N>(ports: seq<OutputPort<N>>, pass: nat, input: JsonObject,
                        run: (nat, nat, JsonObject) -> TaskOutcome, d: Dispatch<N>)
  {
    d.port < |ports| && d.target in ports[d.port].nextNodes && run(pass, d.port, input) == Returned(d.payload)
  }

  /** What one task sends goes through its own port only, to nodes wired to
      it, and carries the value the task returned. */
  lemma TaskDispatchesSound<N>(ports: seq<OutputPort<N>>, pass: nat, k: nat, input: JsonObject,
                               run: (nat, nat, JsonObject) -> TaskOutcome)
    ensures forall i :: 0 <= i < |TaskDispatches(ports, pass, k, input, run)| ==>
              TaskDispatches(ports, pass, k, input, run)[i].port == k &&
              Delivers(ports, pass, input, run, TaskDispatches(ports, pass, k, input, run)[i])
  {
  }

  /** Every dispatch of a pass names a node wired to the port of the task
      whose returned value it carries. */
  lemma {:induction false} PassDispatchesSound<N>(ports: seq<OutputPort<N>>, pass: nat, n: nat, input: JsonObject,
                                                 run: (nat, nat, JsonObject) -> TaskOutcome)
    ensures forall i :: 0 <= i < |PassDispatches(ports, pass, n, input, run)| ==>
              PassDispatches(ports, pass, n, input, run)[i].port < n &&
              Delivers(ports, pass, input, run, PassDispatches(ports, pass, n, input, run)[i])
  {
    if n > 0 {
      var before: seq<Dispatch<N>> := PassDispatches(ports, pass, n - 1, input, run);
      var t := TaskDispatches(ports, pass, n - 1, input, run);
      PassDispatchesSound(ports, pass, n - 1, input, run);
      TaskDispatchesSound(ports, pass, n - 1, input, run);
      forall i: int | 0 <= i < |before + t|
        ensures (before + t)[i].port < n && Delivers(ports, pass, input, run, (before + t)[i])
      {
        if i < |before| {
          assert (before + t)[i] == before[i];
        } else {
          assert (before + t)[i] == t[i - |before|];
        }
      }
    }
  }

  /** Routing correctness over a whole call: a dispatch through port j always
      carries the value task j returned in some pass, to a node wired to port j. */
  lemma {:induction false} RunDispatchesSound<N>(ports: seq<OutputPort<N>>, passes: nat, n: nat, input: JsonObject,
                                                run: (nat, nat, JsonObject) -> TaskOutcome)
    ensures forall i :: 0 <= i < |RunDispatches(ports, passes, n, input, run)| ==>
              RunDispatches(ports, passes, n, input, run)[i].port < n &&
              exists p :: 0 <= p < passes && Delivers(ports, p, input, run, RunDispatches(ports, passes, n, input, run)[i])
  {
    if passes > 0 {
      var before: seq<Dispatch<N>> := RunDispatches(ports, passes - 1, n, input, run);
      var last := PassDispatches(ports, passes - 1, n, input, run);
      RunDispatchesSound(ports, passes - 1, n, input, run);
      PassDispatchesSound(ports, passes - 1, n, input, run);
      forall i: int | 0 <= i < |before + last|
        ensures (before + last)[i].port < n
        ensures exists p :: 0 <= p < passes && Delivers(ports, p, input, run, (before + last)[i])
      {
        if i < |before| {
          var d := before[i];
          assert (before + last)[i] == d;
          var p :| 0 <= p < passes - 1 && Delivers(ports, p, input, run, d);
        } else {
          var d := last[i - |before|];
          assert (before + last)[i] == d;
          assert Delivers(ports, passes - 1, input, run, d);
        }
      }
    }
  }

  /** A node that is not a Starter makes a single pass: it completes, ends
      initialized, runs the prepare hook exactly when it was not initialized,
      and dispatches exactly what one pass of its tasks sends, on the
      original input. */
  lemma StandardSinglePass<N>(enabled: bool, initialized: bool, ports: seq<OutputPort<N>>,
                              n: nat, input: JsonObject, oracle: Oracle)
    requires enabled && oracle.cancelAfter > 0 && (initialized || !oracle.prepareThrows)
    ensures var r := Step(Standard, enabled, initialized, ports, n, input, oracle);
            r.outcome == Completed && r.initialized && r.prepareInvoked == !initialized
    ensures Step(Standard, enabled, initialized, ports, n, input, oracle).calls == PassCalls(0, n, input)
    ensures Step(Standard, enabled, initialized, ports, n, input, oracle).dispatches
            == PassDispatches(ports, 0, n, input, oracle.run)
  {
    assert RunCalls(1, n, input) == [] + PassCalls(0, n, input);
    assert RunDispatches(ports, 1, n, input, oracle.run) == [] + PassDispatches(ports, 0, n, input, oracle.run);
  }

  /** Position c of a call's invocations is task c % n of pass c / n. */
  lemma {:induction false} RunCallAt(passes: nat, n: nat, input: JsonObject, c: nat)
    requires n > 0 && c < |RunCalls(passes, n, input)|
    ensures RunCalls(passes, n, input)[c] == TaskCall(c / n, c % n, input)
  {
    var before := RunCalls(passes - 1, n, input);
    var last := PassCalls(passes - 1, n, input);
    assert RunCalls(passes, n, input) == before + last;
    if c < |before| {
      RunCallAt(passes - 1, n, input, c);
      assert (before + last)[c] == before[c];
    } else {
      RunCallsCount(passes - 1, n, input);
      PassCallsInOrder(passes - 1, n, input);
      var i := c - |before|;
      assert c == (passes - 1) * n + i;
      DivModOfPass(passes - 1, i, n);
      assert (before + last)[c] == last[i];
    }
  }

  lemma RunCallsAt(passes: nat, n: nat, input: JsonObject)
    requires n > 0
    ensures forall c :: 0 <= c < |RunCalls(passes, n, input)| ==>
              RunCalls(passes, n, input)[c] == TaskCall(c / n, c % n, input)
  {
    forall c | 0 <= c < |RunCalls(passes, n, input)|
      ensures RunCalls(passes, n, input)[c] == TaskCall(c / n, c % n, input)
    {
      RunCallAt(passes, n, input, c);
    }
  }

  /** Invocation i of pass q sits at position q * n + i. */
  lemma DivModOfPass(q: nat, i: nat, n: nat)
    requires i < n
    ensures (q * n + i) / n == q && (q * n + i) % n == i
  {
    var x := q * n + i;
    var d, r := x / n, x % n;
    assert x == d * n + r && 0 <= r < n;
    if d > q {
      MulStep(q, d, n);
    } else if d < q {
      MulStep(d, q, n);
    }
  }

  /** A larger multiplier adds at least one more n. */
  lemma MulStep(a: int, b: int, n: nat)
    requires a < b
    ensures a * n + n <= b * n
  {
    var k: nat := b - a - 1;
    assert b * n == a * n + k * n + n;
    assert k * n >= 0;
  }

  /** A Starter node keeps making passes until the token is cancelled: each of
      the `cancelAfter` passes invokes every task, in order, on the same
      input, and routes each result to its own port. */
  lemma StarterPasses<N>(initialized: bool, ports: seq<OutputPort<N>>, n: nat, input: JsonObject, oracle: Oracle)
    requires initialized || !oracle.prepareThrows
    ensures var r := Step(Starter, true, initialized, ports, n, input, oracle);
            r.outcome == Completed &&
            r.initialized == (initialized || oracle.cancelAfter > 0) &&
            r.prepareInvoked == (!initialized && oracle.cancelAfter > 0) &&
            r.calls == RunCalls(oracle.cancelAfter, n, input) &&
            r.dispatches == RunDispatches(ports, oracle.cancelAfter, n, input, oracle.run) &&
            |r.calls| == oracle.cancelAfter * n &&
            (n > 0 ==> forall c :: 0 <= c < |r.calls| ==> r.calls[c] == TaskCall(c / n, c % n, input))
  {
    RunCallsCount(oracle.cancelAfter, n, input);
    if n > 0 {
      RunCallsAt(oracle.cancelAfter, n, input);
    }
  }

  // ---------------------------------------------------------------------------
  // Initialization across activations

  /** One activation of a node: its enabled flag at the time, the payload and the world. */
  datatype Activation = Activation(enabled: bool, input: JsonObject, oracle: Oracle)

  /** The initialization flag after a series of activations. */
  function FinalInitialized<N>(nodeType: NodeType, ports: seq<OutputPort<N>>, n: nat,
                               initialized: bool, acts: seq<Activation>): bool
    decreases |acts|
  {
    if acts == [] then initialized
    else
      var r := Step(nodeType, acts[0].enabled, initialized, ports, n, acts[0].input, acts[0].oracle);
      FinalInitialized(nodeType, ports, n, r.initialized, acts[1..])
  }

  /** How many activations of a series ran the prepare hook to completion. */
  function SuccessfulPrepares<N>(nodeType: NodeType, ports: seq<OutputPort<N>>, n: nat,
                                 initialized: bool, acts: seq<Activation>): nat
    decreases |acts|
  {
    if acts == [] then 0
    else
      var r := Step(nodeType, acts[0].enabled, initialized, ports, n, acts[0].input, acts[0].oracle);
      (if r.prepareInvoked && r.outcome == Completed then 1 else 0)
        + SuccessfulPrepares(nodeType, ports, n, r.initialized, acts[1..])
  }

  /** Single initialization: over any number of activations the prepare hook
      completes at most once (never, on a node already initialized), and the
      node ends initialized exactly when it was, or a prepare completed. */
  lemma {:induction false} PrepareCompletesAtMostOnce<N>(nodeType: NodeType, ports: seq<OutputPort<N>>, n: nat,
                                                         initialized: bool, acts: seq<Activation>)
    ensures SuccessfulPrepares(nodeType, ports, n, initialized, acts) <= if initialized then 0 else 1
    ensures FinalInitialized(nodeType, ports, n, initialized, acts)
            <==> initialized || SuccessfulPrepares(nodeType, ports, n, initialized, acts) == 1
    decreases |acts|
  {
    if acts != [] {
      var r := Step(nodeType, acts[0].enabled, initialized, ports, n, acts[0].input, acts[0].oracle);
      PrepareCompletesAtMostOnce(nodeType, ports, n, r.initialized, acts[1..]);
    }
  }
}
