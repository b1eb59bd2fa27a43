/** A node of the flow graph and its execution step (NodeBase.ExecuteNode).

    The node's mutable state is a class. The work tasks, the prepare hook and
    the cancellation token are external: one ExecuteNode call sees them through
    an Oracle. The fire-and-forget ExecuteNode calls on downstream nodes are not
    run; ExecuteNode returns them, in order, as Dispatch values, and it really
    sets each target's parent reference. */
module NodeDefinition {
  import opened Execution

  /** The node's one input port: an address, not a buffer. */
  datatype InputPort = InputPort(ownerId: string)

  /** What happens to the node's binary semaphore. */
  datatype GuardEvent = Acquired | Released

  /** The nodes a list of dispatches activates. */
  function DispatchTargets(ds: seq<Dispatch<NodeBase>>): set<NodeBase>
  {
    set i | 0 <= i < |ds| :: ds[i].target
  }

  lemma DispatchTargetsConcat(a: seq<Dispatch<NodeBase>>, b: seq<Dispatch<NodeBase>>)
    ensures DispatchTargets(a + b) == DispatchTargets(a) + DispatchTargets(b)
  {
    forall m | m in DispatchTargets(a + b)
      ensures m in DispatchTargets(a) + DispatchTargets(b)
    {
      var i :| 0 <= i < |a + b| && (a + b)[i].target == m;
      if i >= |a| {
        assert b[i - |a|].target == m;
      }
    }
    forall m | m in DispatchTargets(a) + DispatchTargets(b)
      ensures m in DispatchTargets(a + b)
    {
      if m in DispatchTargets(a) {
        var i :| 0 <= i < |a| && a[i].target == m;
        assert (a + b)[i].target == m;
      } else {
        var i :| 0 <= i < |b| && b[i].target == m;
        assert (a + b)[|a| + i].target == m;
      }
    }
  }

  /** The regrouping the log invariants need, named so the loops can ask
      for it at the step where the log grows. */
  lemma AppendAssociative<T>(a: seq<T>, b: seq<T>, c: seq<T>)
    ensures a + b + c == a + (b + c)
  {
  }

  class NodeBase {
    const id: string
    const nodeType: NodeType
    /** PluginBase.WorkTasks.Count, fixed by the plugin. */
    const workTaskCount: nat
    const inputPort: InputPort
    var outputPorts: seq<OutputPort<NodeBase>>
    var isEnabled: bool
    var isInitialized: bool
    /** Current count of the SemaphoreSlim(1, 1) guard: 1 when free, 0 when held. */
    var semaphoreCount: nat
    /** PluginBase.ParentNode: the node that last dispatched to this one. */
    var parentNode: NodeBase?

    /** Number of times the prepare hook ran to completion. */
    ghost var prepareCompletions: nat
    /** Every work-task invocation so far, in order. */
    ghost var taskLog: seq<TaskCall>
    /** Every acquisition and release of the guard so far, in order. */
    ghost var guardLog: seq<GuardEvent>

    /** Between calls the guard is free, and the node is initialized exactly
        when the prepare hook has completed, which it did at most once. */
    ghost predicate Valid()
      reads this
    {
      semaphoreCount == 1 &&
      prepareCompletions <= 1 &&
      (isInitialized <==> prepareCompletions == 1)
    }

    /** Every node wired to one of this node's output ports. */
    ghost function Targets(): set<NodeBase>
      reads this`outputPorts
    {
      set p, m | p in outputPorts && m in p.nextNodes :: m
    }

    /** Builds a node for a plugin with `workTaskCount` work tasks: one input
        port and one fresh output port per work task, in order. The port
        identifiers are fresh GUIDs in NodeBase.cs; here they are parameters. */
    constructor (id: string, nodeType: NodeType, workTaskCount: nat, portIds: seq<string>)
      requires |portIds| == workTaskCount
      requires forall a, b :: 0 <= a < b < |portIds| ==> portIds[a] != portIds[b]
      ensures Valid()
      ensures this.id == id && this.nodeType == nodeType && this.workTaskCount == workTaskCount
      ensures inputPort == InputPort(id)
      ensures |outputPorts| == workTaskCount
      ensures forall i :: 0 <= i < workTaskCount ==> outputPorts[i] == OutputPort(portIds[i], [])
      ensures isEnabled && !isInitialized && parentNode == null
      ensures taskLog == [] && guardLog == []
    {
      var ports: seq<OutputPort<NodeBase>> := [];
      for i := 0 to workTaskCount
        invariant |ports| == i
        invariant forall k :: 0 <= k < i ==> ports[k] == OutputPort(portIds[k], [])
      {
        ports := ports + [OutputPort(portIds[i], [])];
      }
      this.id := id;
      this.nodeType := nodeType;
      this.workTaskCount := workTaskCount;
      inputPort := InputPort(id);
      outputPorts := ports;
      isEnabled := true;
      isInitialized := false;
      semaphoreCount := 1;
      parentNode := null;
      prepareCompletions := 0;
      taskLog := [];
      guardLog := [];
    }

    /** The IsEnabled setter. ExecuteNode reads the flag at every pass; in
        this sequential model no call is running while it is set. */
    method SetEnabled(enabled: bool)
      requires Valid()
      modifies this`isEnabled
      ensures Valid()
      ensures isEnabled == enabled
    {
      isEnabled := enabled;
    }

    /** SemaphoreSlim.WaitAsync: returns once the guard is free, and takes it. */
    method WaitGuard()
      requires semaphoreCount > 0
      modifies this`semaphoreCount, this`guardLog
      ensures semaphoreCount == old(semaphoreCount) - 1
      ensures guardLog == old(guardLog) + [Acquired]
    {
      semaphoreCount := semaphoreCount - 1;
      guardLog := guardLog + [Acquired];
    }

    /** SemaphoreSlim.Release on a semaphore whose maximum count is 1. */
    method ReleaseGuard()
      requires semaphoreCount == 0
      modifies this`semaphoreCount, this`guardLog
      ensures semaphoreCount == 1
      ensures guardLog == old(guardLog) + [Released]
    {
      semaphoreCount := semaphoreCount + 1;
      guardLog := guardLog + [Released];
    }

    /** Sends `payload` to every node wired to `port`, in the port's order,
        after making this node their parent. The cancellation check of NodeBase.cs
        here has no effect: it awaits a completed task and dispatch goes on. */
    method TriggerNextNodes(port: OutputPort<NodeBase>, index: nat, payload: JsonObject)
      returns (ds: seq<Dispatch<NodeBase>>)
      modifies (set m | m in port.nextNodes)`parentNode
      ensures ds == Route(port.nextNodes, index, payload)
      ensures forall m :: m in port.nextNodes ==> m.parentNode == this
    {
      ds := [];
      var k := 0;
      while k < |port.nextNodes|
        invariant 0 <= k <= |port.nextNodes|
        invariant |ds| == k
        invariant forall q :: 0 <= q < k ==> ds[q] == Dispatch(port.nextNodes[q], index, payload)
        invariant forall q :: 0 <= q < k ==> port.nextNodes[q].parentNode == this
      {
        var next := port.nextNodes[k];
        next.parentNode := this;
        ds := ds + [Dispatch(next, index, payload)];
        k := k + 1;
      }
    }

    /** The try-block around one work task: invoke it on `jsonData`; if it
        throws, the exception is caught and logged; otherwise its result is
        sent through the output port with the same index. */
    method RunTask(pass: nat, i: nat, jsonData: JsonObject, oracle: Oracle)
      returns (ds: seq<Dispatch<NodeBase>>)
      modifies this`taskLog, Targets()`parentNode
      ensures ds == TaskDispatches(outputPorts, pass, i, jsonData, oracle.run)
      ensures taskLog == old(taskLog) + [TaskCall(pass, i, jsonData)]
      ensures forall m :: m in old(Targets()) ==>
                m.parentNode == if m in DispatchTargets(ds) then this else old(m.parentNode)
    {
      taskLog := taskLog + [TaskCall(pass, i, jsonData)];
      ds := [];
      match oracle.run(pass, i, jsonData)
      case Threw =>
        // caught and logged
      case Returned(result) =>
        if i < |outputPorts| {
          var port := outputPorts[i];
          assert forall m :: m in port.nextNodes ==> m in Targets();
          ds := TriggerNextNodes(port, i, result);
          assert DispatchTargets(ds) == set m | m in port.nextNodes;
        }
    }

    /** One iteration of the work-task loop: task `i` runs after tasks
        0 .. i-1 of the same pass, which sent `sent` and made this node the
        parent of exactly the nodes `sent` reaches (`before` holds the
        parents from the start of the pass). */
    method RunNextTask(pass: nat, i: nat, jsonData: JsonObject, oracle: Oracle,
                       sent: seq<Dispatch<NodeBase>>, ghost before: map<NodeBase, NodeBase?>)
      returns (sent': seq<Dispatch<NodeBase>>)
      requires sent == PassDispatches(outputPorts, pass, i, jsonData, oracle.run)
      requires forall m :: m in Targets() ==>
                 m in before && m.parentNode == if m in DispatchTargets(sent) then this else before[m]
      modifies this`taskLog, Targets()`parentNode
      ensures sent' == PassDispatches(outputPorts, pass, i + 1, jsonData, oracle.run)
      ensures taskLog == old(taskLog) + [TaskCall(pass, i, jsonData)]
      ensures forall m :: m in Targets() ==>
                m in before && m.parentNode == if m in DispatchTargets(sent') then this else before[m]
    {
      var ds := RunTask(pass, i, jsonData, oracle);
      PassDispatchesNext(outputPorts, pass, i, jsonData, oracle.run, sent, ds);
      DispatchTargetsConcat(sent, ds);
      sent' := sent + ds;
    }

    /** One pass over the plugin's work tasks, in declared order, each on the
        same `jsonData`. A task that throws is caught and logged, and the
        index still advances. A task that returns has its result sent to the
        nodes of the output port with its own index. */
    method RunWorkTasks(pass: nat, jsonData: JsonObject, oracle: Oracle)
      returns (dispatches: seq<Dispatch<NodeBase>>)
      modifies this`taskLog, Targets()`parentNode
      ensures dispatches == PassDispatches(outputPorts, pass, workTaskCount, jsonData, oracle.run)
      ensures taskLog == old(taskLog) + PassCalls(pass, workTaskCount, jsonData)
      ensures forall m :: m in old(Targets()) ==>
                m.parentNode == if m in DispatchTargets(dispatches) then this else old(m.parentNode)
    {
      ghost var ports := outputPorts;
      ghost var log0 := taskLog;
      ghost var before := map m | m in Targets() :: m.parentNode;
      dispatches := [];
      var i := 0;
      while i < workTaskCount
        invariant i <= workTaskCount
        invariant outputPorts == ports
        invariant dispatches == PassDispatches(ports, pass, i, jsonData, oracle.run)
        invariant taskLog == log0 + PassCalls(pass, i, jsonData)
        invariant forall m :: m in Targets() ==>
                    m in before && m.parentNode == if m in DispatchTargets(dispatches) then this else before[m]
      {
        dispatches := RunNextTask(pass, i, jsonData, oracle, dispatches, before);
        AppendAssociative(log0, PassCalls(pass, i, jsonData), [TaskCall(pass, i, jsonData)]);
        i := i + 1;
      }
    }

    /** The body of ExecuteNode's loop, one pass: nothing on a disabled node;
        otherwise the prepare hook if the node is not initialized (its
        exception, `faulted`, ends the pass at once), then every work task. */
    method RunPass(pass: nat, jsonData: JsonObject, oracle: Oracle)
      returns (faulted: bool, dispatches: seq<Dispatch<NodeBase>>)
      modifies this`isInitialized, this`prepareCompletions, this`taskLog, Targets()`parentNode
      ensures faulted <==> isEnabled && !old(isInitialized) && oracle.prepareThrows
      ensures isInitialized == (old(isInitialized) || (isEnabled && !faulted))
      ensures prepareCompletions
              == old(prepareCompletions) + (if !old(isInitialized) && isEnabled && !faulted then 1 else 0)
      ensures taskLog == old(taskLog) + if isEnabled && !faulted then PassCalls(pass, workTaskCount, jsonData) else []
      ensures dispatches
              == if isEnabled && !faulted then PassDispatches(outputPorts, pass, workTaskCount, jsonData, oracle.run) else []
      ensures forall m :: m in old(Targets()) ==>
                m.parentNode == if m in DispatchTargets(dispatches) then this else old(m.parentNode)
    {
      faulted := false;
      dispatches := [];
      if isEnabled {
        if !isInitialized {
          if oracle.prepareThrows {
            faulted := true;
            return;
          }
          isInitialized := true;
          prepareCompletions := prepareCompletions + 1;
        }
        dispatches := RunWorkTasks(pass, jsonData, oracle);
      }
    }

    /** One activation of the node. The guard is held for the whole call and
        released on every exit, the exception of a throwing prepare hook
        escaping after the release. */
    method ExecuteNode(jsonData: JsonObject, oracle: Oracle)
      returns (outcome: ExecOutcome, dispatches: seq<Dispatch<NodeBase>>)
      requires Valid()
      modifies this`isInitialized, this`semaphoreCount, this`prepareCompletions, this`taskLog, this`guardLog
      modifies Targets()`parentNode
      ensures Valid()
      ensures var r := Step(nodeType, isEnabled, old(isInitialized), outputPorts, workTaskCount, jsonData, oracle);
              outcome == r.outcome && isInitialized == r.initialized && dispatches == r.dispatches &&
              taskLog == old(taskLog) + r.calls &&
              prepareCompletions == old(prepareCompletions) + (if r.prepareInvoked && r.outcome == Completed then 1 else 0)
      ensures guardLog == old(guardLog) + [Acquired, Released]
      ensures forall m :: m in old(Targets()) ==>
                m.parentNode == if m in DispatchTargets(dispatches) then this else old(m.parentNode)
    {
      WaitGuard();
      outcome, dispatches := RunPasses(jsonData, oracle);
      ReleaseGuard();
    }

    /** The guarded body of ExecuteNode. The loop runs once for a Standard
        node and, for a Starter, until the token reads cancelled. Each pass of
        an enabled node first runs the prepare hook if the node is not yet
        initialized, then runs every work task in order on `jsonData`. A
        throwing task is caught, and each result is routed to the output port
        with the same index. A throwing prepare hook ends the call with
        PrepareFaulted. */
    method RunPasses(jsonData: JsonObject, oracle: Oracle)
      returns (outcome: ExecOutcome, dispatches: seq<Dispatch<NodeBase>>)
      modifies this`isInitialized, this`prepareCompletions, this`taskLog, Targets()`parentNode
      ensures var r := Step(nodeType, isEnabled, old(isInitialized), outputPorts, workTaskCount, jsonData, oracle);
              outcome == r.outcome && isInitialized == r.initialized && dispatches == r.dispatches &&
              taskLog == old(taskLog) + r.calls &&
              prepareCompletions == old(prepareCompletions) + (if r.prepareInvoked && r.outcome == Completed then 1 else 0)
      ensures forall m :: m in old(Targets()) ==>
                m.parentNode == if m in DispatchTargets(dispatches) then this else old(m.parentNode)
    {
      ghost var targets := Targets();
      ghost var init0 := isInitialized;
      ghost var ports := outputPorts;
      ghost var passes := PassCount(nodeType, oracle.cancelAfter);
      outcome := Completed;
      dispatches := [];
      var run := true;
      var pass := 0;
      while run && pass < oracle.cancelAfter
        invariant pass <= oracle.cancelAfter
        invariant nodeType == Standard ==> (run <==> pass == 0)
        invariant nodeType == Starter ==> run
        invariant pass <= passes
        invariant outcome == Completed
        invariant outputPorts == ports
        invariant isEnabled && pass > 0 && !init0 ==> !oracle.prepareThrows
        invariant var p := Progress(isEnabled, init0, ports, workTaskCount, jsonData, oracle.run, pass);
                  isInitialized == p.initialized && dispatches == p.dispatches &&
                  taskLog == old(taskLog) + p.calls &&
                  prepareCompletions == old(prepareCompletions) + (if p.prepareInvoked then 1 else 0)
        invariant forall m :: m in targets ==>
                    m.parentNode == if m in DispatchTargets(dispatches) then this else old(m.parentNode)
        decreases oracle.cancelAfter - pass
      {
        if nodeType != Starter {
          run := false;
        }
        var faulted, ds := RunPass(pass, jsonData, oracle);
        if faulted {
          outcome := PrepareFaulted;
          break;
        }
        ProgressNext(isEnabled, init0, ports, workTaskCount, jsonData, oracle.run, pass);
        if isEnabled {
          AppendAssociative(old(taskLog), RunCalls(pass, workTaskCount, jsonData), PassCalls(pass, workTaskCount, jsonData));
        }
        DispatchTargetsConcat(dispatches, ds);
        dispatches := dispatches + ds;
        pass := pass + 1;
      }
      if outcome == Completed {
        assert pass == passes || !isEnabled;
        StepProgress(nodeType, isEnabled, init0, ports, workTaskCount, jsonData, oracle);
      }
    }

    /** The unattended loop a Starter node's constructor starts: ExecuteNode
        on an empty record, any escaping exception logged and dropped. */
    method RunStarter(oracle: Oracle) returns (dispatches: seq<Dispatch<NodeBase>>)
      requires Valid() && nodeType == Starter
      modifies this`isInitialized, this`semaphoreCount, this`prepareCompletions, this`taskLog, this`guardLog
      modifies Targets()`parentNode
      ensures Valid()
      ensures var r := Step(Starter, isEnabled, old(isInitialized), outputPorts, workTaskCount, map[], oracle);
              isInitialized == r.initialized && dispatches == r.dispatches &&
              taskLog == old(taskLog) + r.calls &&
              prepareCompletions == old(prepareCompletions) + (if r.prepareInvoked && r.outcome == Completed then 1 else 0)
      ensures guardLog == old(guardLog) + [Acquired, Released]
      ensures forall m :: m in old(Targets()) ==>
                m.parentNode == if m in DispatchTargets(dispatches) then this else old(m.parentNode)
    {
      var outcome;
      outcome, dispatches := ExecuteNode(map[], oracle);
    }
  }
}
