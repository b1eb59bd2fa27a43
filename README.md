# NovusNodo: node execution and editor canvas, in Dafny

NovusNodo is a flow-based automation tool. A flow is a graph of nodes. Each
node wraps a plugin with an ordered set of asynchronous work tasks and one
output port per task. The downstream nodes wired to a port are started with
the result of that port's task. The browser-side editor (`Canvas.js`) keeps
the list of nodes, the list of links and each port's attached links. Its
pointer handlers draw links and select nodes.

This project models two parts of that system.

- **The execution step of a node** (`NodeBase.ExecuteNode`):
  - It takes a binary semaphore.
  - It loops: once for a Standard node, and until the cancellation token
    is cancelled for a Starter node.
  - On an enabled node, it runs the plugin's prepare hook once, then every
    work task in order on the same input payload.
  - It catches each task's exception on its own.
  - It routes the result of task *i* to every node wired to output port
    *i*, after making this node their parent.
  - It releases the semaphore on every exit.
- **The editor canvas' bookkeeping**:
  - adding nodes and links;
  - deleting the selected link and node;
  - clearing the selection;
  - link creation on pointer-up, over the nodes' input-port boxes;
  - the rectangle selection.

### Files

- `Execution.dfy` (module `Execution`) describes one `ExecuteNode` call
  as pure functions:
  - `Step` gives the outcome, the initialization flag, whether prepare ran,
    the task invocations and the dispatches.
  - `PassDispatches`/`RunDispatches` give what is sent downstream.
  - `PassCalls`/`RunCalls` give which tasks are invoked.
  - The lemmas state routing alignment, failure isolation, the pass count
    and single initialization over any series of activations.
  - The outside world of one call is an `Oracle`:
    - how many loop-condition checks still see the token not cancelled;
    - whether the prepare hook throws;
    - what each work task returns or whether it throws, by pass, index
      and input.
- `NodeBase.dfy` (module `NodeDefinition`) has the class `NodeBase` with
  the fields of the C# class.
  - Its constructor builds one output port per work task in a loop.
  - `ExecuteNode`, `TriggerNextNodes` and the loops between them are
    methods proved to do what `Step` says.
    - They update the initialization flag, the semaphore count and each
      target's parent reference in place.
    - They return, in order, the fire-and-forget `ExecuteNode` calls they
      make, as `Dispatch(target, port index, payload)` values.
- `Canvas.dfy` (module `NodeFramework`) has the classes `Port`, `Link`,
  `CanvasNode` and `Canvas`.
  - The methods of `Canvas` update its lists and the ports' attached links
    in place, and keep the invariant that every listed link is attached to
    both of its ports.
  - The filters Canvas.js applies are written out as functions.
  - Lemmas relate those functions to one generic `Filter` (order kept,
    multiplicities, idempotence) and relate the pointer-up loop to the
    first of all nodes hit.

Behaviour the model keeps as the code has it:

- Deleting a node removes its links from the link list only. The ports at
  the far ends of those links keep them in their attached links.
- A work task whose index has no output port throws in the port lookup.
  That happens inside the task's try-block, so nothing is sent and the next
  task runs.
- The cancellation check at the top of `TriggerNextNodes` has no effect.

## Model

| member | source | states |
|---|---|---|
| Execution.Route | NovusNodoCore/NodeDefinition/NodeBase.cs:178-183 | A port's activations: one per wired node, in the port's order, each carrying the same payload and the port's index |
| Execution.Step | NovusNodoCore/NodeDefinition/NodeBase.cs:113-147 | One call's effect. A disabled node, or a token cancelled on entry, runs nothing, sends nothing and keeps its flag. Once a pass begins on an enabled node, prepare runs exactly when the node is not initialized: if it returns the node ends initialized and the call completes, if it throws the call faults. The flag, once set, stays set. The call faults exactly when prepare ran and the flag stayed false, and then no task runs and nothing is sent. Tasks run only on an initialized node. A Standard node makes only pass 0 |
| Execution.StepProgress | NovusNodoCore/NodeDefinition/NodeBase.cs:113-148 | Unless the prepare hook throws in the first pass, a call has the effect of all its passes, as many as the token allows |
| Execution.ProgressNext | NovusNodoCore/NodeDefinition/NodeBase.cs:123-147 | One more pass appends that pass's calls and dispatches to an enabled call's effect, and changes nothing for a disabled one |
| Execution.PassCallsInOrder | NovusNodoCore/NodeDefinition/NodeBase.cs:131-138 | In a pass, the i-th invocation is task i, and every task is handed the same input object the call received, whatever the other tasks returned |
| Execution.RunCallsShape | NovusNodoCore/NodeDefinition/NodeBase.cs:113-138 | Every invocation of a call is handed the input object the call received, names an existing task and belongs to a pass that began |
| Execution.RunCallAt | NovusNodoCore/NodeDefinition/NodeBase.cs:113-146 | Position c of a call's invocations is task c mod n of pass c div n, on the call's input: pass after pass, each in task order |
| Execution.RunCallsAt | NovusNodoCore/NodeDefinition/NodeBase.cs:113-146 | The same for every position at once |
| Execution.RunCallsCount | NovusNodoCore/NodeDefinition/NodeBase.cs:113-146 | A call of p passes invokes p times n tasks |
| Execution.OnPortRoute | NovusNodoCore/NodeDefinition/NodeBase.cs:178-183 | A port's activations go through that port and no other |
| Execution.OnPortTask | NovusNodoCore/NodeDefinition/NodeBase.cs:136-144 | What task k sends goes through port k only |
| Execution.PassDispatchesBeyond | NovusNodoCore/NodeDefinition/NodeBase.cs:131-146 | A port whose index is past the tasks receives nothing in a pass |
| Execution.PassDispatchesOnPort | NovusNodoCore/NodeDefinition/NodeBase.cs:131-146 | Routing is index-aligned: in a pass, port j receives exactly what task j sends, and nothing from another task |
| Execution.TaskIsolation | NovusNodoCore/NodeDefinition/NodeBase.cs:136-145 | Failure isolation: a throwing task's port receives nothing in the pass. A returning task's port receives its result at every wired node, in order, whatever the other tasks did |
| Execution.TaskDispatchesSound | NovusNodoCore/NodeDefinition/NodeBase.cs:138-139 | Each dispatch of task k goes through port k, to a node wired to it, carrying what task k returned |
| Execution.PassDispatchesSound | NovusNodoCore/NodeDefinition/NodeBase.cs:131-146 | Every dispatch of a pass goes to a node wired to its port and carries the value that port's task returned in that pass |
| Execution.RunDispatchesSound | NovusNodoCore/NodeDefinition/NodeBase.cs:113-148 | Over a whole call, each dispatch through port j carries what task j returned in some pass, to a node wired to port j |
| Execution.StandardSinglePass | NovusNodoCore/NodeDefinition/NodeBase.cs:116-147 | An enabled Standard node, unless prepare throws, makes exactly one pass: it completes, ends initialized, runs prepare exactly when it was not initialized, and its invocations and dispatches are those of pass 0 |
| Execution.StarterPasses | NovusNodoCore/NodeDefinition/NodeBase.cs:113-147 | An enabled Starter node completes and makes one pass per check that sees the token not cancelled. It is initialized after any pass, and prepare runs exactly when it was not initialized and a pass began. Its invocations are all passes' invocations: position c is task c mod n of pass c div n, on the same input. Its dispatches are all passes' dispatches, in order |
| Execution.PrepareCompletesAtMostOnce | NovusNodoCore/NodeDefinition/NodeBase.cs:123-129 | Over any series of activations, prepare completes at most once, and never on an initialized node. The node ends initialized exactly when it was, or a prepare completed |
| NodeDefinition.NodeBase.constructor | NovusNodoCore/NodeDefinition/NodeBase.cs:56-73 | One input port owned by the node. As many output ports as work tasks, in order, with the given distinct identifiers and no wired nodes. Enabled, not initialized, semaphore free, no parent |
| NodeDefinition.NodeBase.SetEnabled | NovusNodoCore/NodeDefinition/NodeBase.cs:100 | Sets IsEnabled and keeps the node's invariant |
| NodeDefinition.NodeBase.WaitGuard | NovusNodoCore/NodeDefinition/NodeBase.cs:109 | Takes the semaphore: the count drops by one and the acquisition is logged |
| NodeDefinition.NodeBase.ReleaseGuard | NovusNodoCore/NodeDefinition/NodeBase.cs:150-153 | Releases the semaphore: the count is back to 1 and the release is logged |
| NodeDefinition.NodeBase.TriggerNextNodes | NovusNodoCore/NodeDefinition/NodeBase.cs:174-186 | Activates every wired node of the port with the payload, in the port's order, and makes this node the parent of each. The cancellation check does not stop it |
| NodeDefinition.NodeBase.RunTask | NovusNodoCore/NodeDefinition/NodeBase.cs:136-144 | Invokes task i once on the input. Its result goes to port i's nodes. A throw, or a missing port, sends nothing. Exactly the activated nodes get this node as parent |
| NodeDefinition.NodeBase.RunNextTask | NovusNodoCore/NodeDefinition/NodeBase.cs:134-146 | One loop iteration extends the pass's dispatches and log by task i's, and this node is parent of exactly the nodes activated so far |
| NodeDefinition.NodeBase.RunWorkTasks | NovusNodoCore/NodeDefinition/NodeBase.cs:131-146 | A pass invokes every task in order on the same input, and sends exactly the pass's dispatches. Only the activated nodes' parents change, to this node |
| NodeDefinition.NodeBase.RunPass | NovusNodoCore/NodeDefinition/NodeBase.cs:121-147 | Faults exactly when an enabled, uninitialized node's prepare throws. The flag is set on an enabled node unless it faulted. The prepare count rises only on the first success. Tasks and dispatches happen only on an enabled node that did not fault |
| NodeDefinition.NodeBase.RunPasses | NovusNodoCore/NodeDefinition/NodeBase.cs:111-148 | The guarded loop has exactly the effect Step gives, on the flag, the log and the dispatches. Only the activated nodes' parents change |
| NodeDefinition.NodeBase.ExecuteNode | NovusNodoCore/NodeDefinition/NodeBase.cs:107-154 | The call has Step's effect and keeps the node's invariant: initialized exactly when prepare completed, at most once. The semaphore is acquired once and released once on every exit, including a prepare failure |
| NodeDefinition.NodeBase.RunStarter | NovusNodoCore/NodeDefinition/NodeBase.cs:75-88 | The Starter's background task runs ExecuteNode on an empty record and has its whole effect: the flag, the task invocations, the prepare count, the dispatches and the parents of the activated nodes are as Step gives them. Any exception is dropped, and the semaphore is acquired and released once |
| NodeFramework.Filter | NovusNodo/wwwroot/node_framework/Canvas.js:181-193 | Array filtering: the result is no longer than the input. It holds only accepted elements of the input, and every accepted element of the input |
| NodeFramework.FilterMember | NovusNodo/wwwroot/node_framework/Canvas.js:181-193 | An element is kept exactly when it occurs and is accepted |
| NodeFramework.FilterConcat | NovusNodo/wwwroot/node_framework/Canvas.js:181-193 | Filtering keeps the input order: filtering a concatenation concatenates the filtered parts |
| NodeFramework.FilterMultiset | NovusNodo/wwwroot/node_framework/Canvas.js:181-193 | Every accepted element is kept as often as it occurs, and no rejected one |
| NodeFramework.FilterAll | NovusNodo/wwwroot/node_framework/Canvas.js:181-193 | A test that accepts everything changes nothing |
| NodeFramework.FilterTwice | NovusNodo/wwwroot/node_framework/Canvas.js:321-326 | Filtering twice with the same test is filtering once |
| NodeFramework.FilterCongruent | NovusNodo/wwwroot/node_framework/Canvas.js:339 | The filter depends only on the test's answers on the listed elements |
| NodeFramework.WithoutLinkId | NovusNodo/wwwroot/node_framework/Canvas.js:321 | The links without the given identifier: only listed links with another identifier, and all of them |
| NodeFramework.WithoutLinkIdIsFilter | NovusNodo/wwwroot/node_framework/Canvas.js:321 | Removing an identifier is the array filter with the test `link.id !== id` |
| NodeFramework.WithoutLinkIdMember | NovusNodo/wwwroot/node_framework/Canvas.js:325-326 | A link survives exactly when it was listed and has another identifier |
| NodeFramework.WithoutLinkIdTwice | NovusNodo/wwwroot/node_framework/Canvas.js:325-326 | Removing an identifier twice, as happens when both ends are one port, removes it once |
| NodeFramework.WithoutNodeId | NovusNodo/wwwroot/node_framework/Canvas.js:332 | The nodes without the given identifier: only listed nodes with another identifier, and all of them |
| NodeFramework.WithoutNodeIdIsFilter | NovusNodo/wwwroot/node_framework/Canvas.js:332 | Removing a node identifier is the array filter with the test `node.id !== id` |
| NodeFramework.Unattached | NovusNodo/wwwroot/node_framework/Canvas.js:339 | The listed links in neither of two attached-link lists, and all of them |
| NodeFramework.UnattachedIsFilter | NovusNodo/wwwroot/node_framework/Canvas.js:339 | That removal is the array filter with the test "in neither list" |
| NodeFramework.UnattachedCongruent | NovusNodo/wwwroot/node_framework/Canvas.js:337-339 | Only the listed links' membership in the two lists matters |
| NodeFramework.FirstHit | NovusNodo/wwwroot/node_framework/Canvas.js:103-121 | The first node in list order whose 10 by 10 input-port box strictly contains the pointer. None when no box does |
| NodeFramework.FirstHitIsFirstOfHits | NovusNodo/wwwroot/node_framework/Canvas.js:103-121 | The node the loop picks is the first of all nodes hit, and there is none exactly when no node is hit |
| NodeFramework.Span | NovusNodo/wwwroot/node_framework/Canvas.js:151-163 | The stretched rectangle has non-negative size, and its corners are the start point and the pointer, whichever way the pointer went |
| NodeFramework.SpanSymmetric | NovusNodo/wwwroot/node_framework/Canvas.js:154-161 | Dragging from A to B gives the rectangle of dragging from B to A |
| NodeFramework.InsideSpan | NovusNodo/wwwroot/node_framework/Canvas.js:181-193 | A node is selected by a stretched rectangle exactly when its box lies between the two points on both axes |
| NodeFramework.Link.constructor | NovusNodo/wwwroot/node_framework/Canvas.js:273 | A link with the given identifier, source port and target port |
| NodeFramework.Canvas.constructor | NovusNodo/wwwroot/node_framework/Canvas.js:6-30 | Empty node and link lists, no selection, not linking or selecting, no temporary line or rectangle |
| NodeFramework.Canvas.AddNode | NovusNodo/wwwroot/node_framework/Canvas.js:264 | Appends the node to the node list. Nothing else changes, and the invariant holds |
| NodeFramework.Canvas.AddLink | NovusNodo/wwwroot/node_framework/Canvas.js:271-278 | One new link from source to target, appended to the link list and to both ports' attached links (twice when both are one port). Nothing else changes |
| NodeFramework.Canvas.ResetAllColors | NovusNodo/wwwroot/node_framework/Canvas.js:302-304 | Clears both the selected link and the selected node |
| NodeFramework.Canvas.OnLinkClick | NovusNodo/wwwroot/node_framework/Canvas.js:293-299 | The clicked link becomes the only selection |
| NodeFramework.Canvas.RemoveLinksWithId | NovusNodo/wwwroot/node_framework/Canvas.js:321 | The link list loses every link with the identifier and keeps the others in order |
| NodeFramework.Canvas.DetachLinksWithId | NovusNodo/wwwroot/node_framework/Canvas.js:325-326 | A port's attached links lose the identifier's links, and every listed link stays attached |
| NodeFramework.Canvas.DeleteSelectedLink | NovusNodo/wwwroot/node_framework/Canvas.js:318-328 | Every link with the selected link's identifier leaves the link list and both end ports' attached links. Other links keep their order, and the selected link is cleared |
| NodeFramework.Canvas.DeleteSelectedNode | NovusNodo/wwwroot/node_framework/Canvas.js:330-343 | The node's identifier leaves the node list. Every link attached to either of its ports leaves the link list, and the selected node is cleared. No port's attached links change |
| NodeFramework.Canvas.DeleteSelection | NovusNodo/wwwroot/node_framework/Canvas.js:317-344 | First the selected link's deletion, then the selected node's, on the lists as the first step left them. The link list loses the link's identifier and then the node's attached links. Both end ports of the link lose its identifier. The node list loses the node's identifier. Both selections end cleared |
| NodeFramework.Canvas.DeleteLinkPart | NovusNodo/wwwroot/node_framework/Canvas.js:318-328 | The link block: with a link selected, it is deleted from the link list and both end ports. The selected node's attached links still pick out the same listed links. Without one, nothing changes |
| NodeFramework.Canvas.OnKeyDown | NovusNodo/wwwroot/node_framework/Canvas.js:167-171 | "Delete" has deleteSelection's whole effect on the node list, the link list, the link's end ports and the selections. Any other key changes nothing |
| NodeFramework.Canvas.OnOutputPortPointerDown | NovusNodo/wwwroot/node_framework/Canvas.js:207-231 | Starts drawing a link from the node's output port: linking, the temporary line exists, and moves drag it |
| NodeFramework.Canvas.OnSvgPointerUp | NovusNodo/wwwroot/node_framework/Canvas.js:83-123 | When not linking: nothing changes, no port included. Otherwise linking stops and the line goes. If a node is hit, exactly one new link goes from the source port to the first hit node's input port, and no other port changes. Otherwise no link is added and no port changes |
| NodeFramework.Canvas.OnSvgPointerDown | NovusNodo/wwwroot/node_framework/Canvas.js:126-165 | On the bare svg element: the selection and multiple selection are cleared, and a 1 by 1 rectangle at the pointer starts a rectangle selection. Elsewhere: nothing |
| NodeFramework.Canvas.OnSvgPointerMove | NovusNodo/wwwroot/node_framework/Canvas.js:151-163 | While selecting, the rectangle becomes the span from its start to the pointer. Otherwise it stays as it was |
| NodeFramework.Canvas.OnWindowPointerUp | NovusNodo/wwwroot/node_framework/Canvas.js:175-202 | Ends selecting. If a rectangle exists, the multiple selection becomes exactly the nodes inside it, in list order, and the rectangle goes |

## Left out

- Concurrency:
  - The downstream `ExecuteNode` calls are not awaited in NodeBase.cs
    (`NodeBase.cs:182`), and here they are not run: they are returned as
    dispatches.
  - A Starter node's background task (`NodeBase.cs:77-88`) is
    `NodeBase.RunStarter`, called explicitly.
  - The semaphore is a count. `WaitGuard` requires it to be free, so the
    waiting of `WaitAsync` is not modelled.
- IsEnabled during a call: `ExecuteNode` reads it at every pass, but here
  it is constant during a call. The model has no other thread that could
  set it meanwhile.
- Cancellation: the token is observed only through the oracle's
  `cancelAfter`, the number of loop-condition checks that still see it not
  cancelled.
- `PrepareWorkloadAsync` (`NodeBase.cs:232-235`) only forwards to the
  plugin's hook, which is not part of this model. Its outcome, returning or
  throwing, is the oracle's `prepareThrows`, used by `NodeBase.RunPass`.
- The work tasks are plugin code. Their outcomes are the oracle's `run`.
- `ExecuteJavaScriptCode` (`NodeBase.cs:162-166`) is a call into the
  browser's JavaScript runtime and is left out.
- Logging is left out: `Logger` calls and `console.log`.
- Identifiers are parameters:
  - the `Guid` identifiers of nodes and ports;
  - the `crypto.randomUUID` identifier of a link.
- Dictionary order: `OutputPorts` and `WorkTasks` are dictionaries. Their
  enumeration order is modelled as the order of a sequence, with task i
  and port i at position i.
- The JSON payloads are opaque values that no modelled code inspects.
- Node.js, Port.js and Link.js are not part of this model.
  - `CanvasNode`, `Port` and `Link` carry only the fields the canvas
    reads: identifiers, positions, sizes, ports and attached links.
  - `removeNode`, `markAsSelected`, `updatePosition` and the node-level
    selection that sets `selectedNode` are left out.
- Rendering is left out:
  - d3 and SVG drawing, the dotted grid and `drawLinks`;
  - colours and dark mode;
  - the temporary line's coordinates.
  The temporary line and the selection rectangle appear only as the
  state the handlers test.
- The multi-node drag is left out: the pointer-down on a node group and
  the moves it binds (`Canvas.js:233-262`), and `isMultiNodeDragging`. A
  node's position is therefore constant.
- The `nodes` field and the canvas' `id`, width and height are left out.
  Nothing modelled reads them.
- Geometry: coordinates and sizes are integers, not `parseFloat` or
  `getBBox` floating point. `getBBox` is taken to report the rectangle
  the handlers last set.
  - The pointer-down records page coordinates (`event.x`) as the
    rectangle's start, while moves use svg-local ones (`d3.pointer`). The
    model takes both as given and does not relate the two systems.
- Shared payload objects: in the C# code a payload is a mutable
  `JsonObject` reference.
  - Every work task of a pass is handed the same object.
  - A Starter reuses the object made at `NodeBase.cs:81` across all of its
    passes.
  - All downstream nodes of a port are handed the same result object.
  Here payloads are immutable values, so a task or a downstream node that
  mutates its argument, and what later tasks, passes or nodes would then
  see, is not modelled. "The same input" in the contracts means the same
  object, not unchanged contents.
