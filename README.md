# Workflow-to-API conversion, modelled in Dafny

The extension turns an editor workflow (a node graph) into the execution
request the server runs, in the API format. It also runs a small HTTP service
that queues conversion requests for a browser page and waits for the page's
answer. This project models the two pieces of logic behind that.

- **`graphToPrompt` (js/utils.js).**
  - `Workflow`: strips `localized_name` from every slot of the serialised workflow.
  - `Prompt`: builds the request. Each node that runs gets an entry under `String(node.id)`
    holding its widget values and connections, its `class_type` and its `_meta.title`.
  - `Resolution`: resolves each connection to the node that really produces the value, walking
    back through bypassed nodes by input type and through virtual nodes by their recorded link.
  - `Prompt` also models the optional clean pass, which deletes references to nodes that have no entry.
  - The node-editor API it calls is plain data in `Graphs`: a node table, a link table and the
    execution order. The nodes are `getInputNode`, the links are `getInputLink`, the order is
    `computeExecutionOrder` and the inner nodes are `getInnerNodes`.
  - JSON values, Python truthiness, JavaScript property-key coercion and `String(id)` are in `Values`.
- **Conversion task bookkeeping (api/workflow.py), in `Tasks`.**
  - The `Task` record and `update_status`.
  - The in-memory `tasks` table and the FIFO `task_queue`, as the class `TaskStore`.
  - The validation and state updates of `POST /cpe/workflow/convert` and `POST /cpe/workflow/convert/callback`.
  - The polling loop, with its interval clamp and its timeout.
  - Wall-clock time is an explicit clock. Each `send_sync` message is a returned `Dispatch`, and each
    response is a returned `Response`.
- **`Helper`.** The two callback bodies js/workflow-helper.js sends, checked against the callback's validation.

Two behaviours of the code that the model reproduces:
- A bypassed node forwards only through an input whose type matches the consumer input's type (js/utils.js:88-105). There is no fallback to the same-index slot.
- Array widget values are copied as they are, without wrapping (js/utils.js:61-69). A widget whose value is a two-element array can therefore be deleted by the clean pass when its first element names no entry.

The methods with loops are proved against specification functions:
- `Resolution.ResolveInput` against `Resolve`.
- `Prompt.CaptureWidgets` against `WidgetValues`, and `Prompt.CollectInputs` against `NodeInputs`.
- `Prompt.BuildOutput` against `BuildFrom`, and `Prompt.CleanOutput` against `CleanAll`.

The lemmas state what the source promises about those functions. `Tasks.TaskStore` keeps the invariant
`Valid()`: each task is stored under its own id with a non-empty client id, and every queue entry is a
stored task. Its methods state the new table, the new queue and every task's new state through `View()`.
For the callbacks that run while a convert request sleeps, that new state is given by value-level folds:
`AfterCallback` is one callback as written, `AfterCallbacks` a run of them, and `Waited` the state at
each check of the polling loop.

## Model

| member | source | states |
|---|---|---|
| Values.DecimalInjective | js/utils.js:135 | `String(id)` is injective on integer ids, so two nodes share an entry key only if they share an id |
| Values.DecimalNotInherited | js/utils.js:146 | no node-id key is the name of an inherited `Object.prototype` member |
| Values.Decimal | js/utils.js:119 | `String(n)` of an integer is non-empty, and starts with '-' when `n` is negative and with a decimal digit otherwise |
| Values.Get | api/workflow.py:129-146 | `dict.get` gives the field's value when it is not null, and None exactly when the key is missing or holds null |
| Values.Truthy | api/workflow.py:124-135 | the `if not ...` tests of both handlers: exactly None, False, 0, "", [] and {} are falsy |
| Values.PropertyKey | js/utils.js:143-147 | a string indexes by itself, a number by its decimal form, a one-element array like its element (or "" for null) and an empty array by "" |
| Values.Joined | js/utils.js:143-147 | joining from the end gives "", and from a later index the text starts with the separator "," |
| Resolution.Candidates | js/utils.js:90-92 | the bypass candidates are `link.origin_slot` followed by every input index in order |
| Resolution.FirstFitFrom | js/utils.js:93-104 | the chosen candidate is the first one, from position `k` on, whose input has the consumer's type; none when no candidate fits |
| Resolution.ForwardingInputChoice | js/utils.js:88-105 | a bypassed node forwards through `origin_slot` when that input has the consumer's type, else through its lowest input with that type; there is none exactly when no input has the type |
| Resolution.FindForwardingInput | js/utils.js:90-104 | the candidate loop returns the forwarding input that `ForwardingInput` specifies |
| Resolution.Step | js/utils.js:79-110 | the loop continues with no link only from a bypassed, non-virtual node |
| Resolution.ResolveInput | js/utils.js:73-111 | the resolution loop computes `Resolve`: the hops of `Chase` from the input's node and link |
| Resolution.ReachedIsConcrete | js/utils.js:77-111 | when the loop ends by its own condition, the producer is neither in mode BYPASS nor virtual |
| Resolution.ChaseFuelMonotone | js/utils.js:77-111 | once a walk ends within some number of hops, any larger bound gives the same outcome |
| Resolution.ReachedIsOriginOfLink | js/utils.js:80-86 | if every link names its own input as target slot, the node reached is the origin of the last link followed |
| Resolution.ResolvedProducer | js/utils.js:74-122 | a resolved input's producer is concrete and is the origin node of the link whose reference is emitted |
| Resolution.StopsWhenNothingForwards | js/utils.js:108-110 | a bypassed node with no input of the consumer's type stops the walk keeping the current link; a virtual node with no link on the forwarded slot stops it with no link |
| Resolution.BypassForwards | js/utils.js:88-105 | a bypassed node hands the walk to the producer of the chosen input; an unlinked choice stops with no link; a linked choice whose origin node is missing throws |
| Prompt.WidgetValuesKeys | js/utils.js:61-69 | a name has a widget value exactly when some widget of that name is not marked `serialize: false` |
| Prompt.WidgetValueIsLast | js/utils.js:62-68 | the value under a name is that of the last serialisable widget with that name |
| Prompt.CaptureWidgets | js/utils.js:61-70 | the widget loop computes `WidgetValues` |
| Prompt.ConnectionsFailure | js/utils.js:73-125 | collecting the connections fails exactly when some input's resolution throws or never ends |
| Prompt.ConnectionsFailureSticks | js/utils.js:73-125 | once an input's resolution fails, later inputs do not change the failure |
| Prompt.LastWriterWins | js/utils.js:65-121 | a written reference replaces any widget value of the same name and is kept unless a later input of that name writes |
| Prompt.UnwrittenKeepsBase | js/utils.js:113-123 | a name no connection writes keeps its widget value, or stays absent |
| Prompt.Reference | js/utils.js:117-122 | a reference is a two-element array whose first element, used as a key, is `String(origin_id)` and whose second is the origin slot |
| Prompt.Written | js/utils.js:113-123 | an input's resolution fails the conversion exactly when it throws or never ends; an unconnected input writes nothing; what is written is a two-element array led by a string |
| Prompt.NodeInputsShape | js/utils.js:57-125 | a node's inputs are its widget values overwritten by the references of its resolved connections: the last writer of a name gives its value, and a name no connection writes is present exactly when it has a widget value, and keeps that value |
| Prompt.CollectInputs | js/utils.js:72-125 | the connection loop computes `NodeInputs` |
| Prompt.FlattenAppend | js/utils.js:40-47 | the visited node sequence of an order is the concatenation of each outer node's visited nodes |
| Prompt.FlattenSources | js/utils.js:41-45 | every visited node is an outer node or an inner node of an outer node that is not skipped; a skipped outer node is never expanded |
| Prompt.FlattenStep | js/utils.js:40-47 | visiting one more outer node appends exactly its expansion |
| Prompt.BuildFailureSticks | js/utils.js:40-137 | a failed conversion stays failed whatever nodes follow |
| Prompt.BuildFailure | js/utils.js:40-137 | the conversion fails exactly when the inputs of some node that gets an entry fail |
| Prompt.OutputKeys | js/utils.js:41-55 | the request has an entry under `k` exactly when some visited node that is not virtual and not in mode 2 or 4 has `String(id) == k` |
| Prompt.OutputEntry | js/utils.js:127-135 | the entry of an emitting node holds its inputs, `class_type = comfyClass` and `_meta.title = title` |
| Prompt.SkippedNodeHasNoEntry | js/utils.js:47-55 | a virtual node, or one in mode 2 or 4, gets no entry |
| Prompt.BuildFailsAfter | js/utils.js:40-137 | a failure after some prefix of the outer nodes is the failure of the whole conversion |
| Prompt.BuildKeysStep | js/utils.js:135 | visiting one more node adds at most the key `String(id)` of that node, and only if it emits |
| Prompt.KeyHasEmitter | js/utils.js:41-55 | every key of the request is `String(id)` of some visited node that emits |
| Prompt.EmitterHasKey | js/utils.js:127-135 | every visited node that emits has an entry under `String(id)` |
| Prompt.VisitNodes | js/utils.js:47-136 | the loop over one outer node's nodes continues `BuildFrom` over the nodes visited before and these |
| Prompt.BuildExtend | js/utils.js:127-135 | visiting one more node adds exactly its entry, adds nothing, or fails when its inputs fail |
| Prompt.BuildOutput | js/utils.js:38-137 | the nested node loop computes `BuildFrom` over the visited nodes |
| Prompt.CleanEntryInputs | js/utils.js:142-150 | the inner clean loop deletes exactly the dangling two-element arrays of one entry |
| Prompt.Dangling | js/utils.js:143-147 | only a two-element array can be deleted; one led by a string is deleted exactly when that string is neither an entry key nor an inherited member, and one led by a number exactly when its decimal form is no entry key |
| Prompt.CleanOutput | js/utils.js:140-152 | the clean loop computes `CleanAll` |
| Prompt.CleanGuarantees | js/utils.js:139-152 | after cleaning, the entries are the same; every remaining two-element array names an entry or an inherited member; other values, class types and titles are untouched |
| Prompt.ReferenceSurvivesIff | js/utils.js:143-148 | a producer reference survives the clean pass exactly when its producer has an entry |
| Prompt.PromptOutput | js/utils.js:38-154 | the request is the built output, cleaned when `clean` is set, or the conversion's failure |
| Workflow.StrippedSlotDetermined | js/utils.js:31-35 | stripping a slot has one result, and stripping again changes nothing |
| Workflow.StripSlots | js/utils.js:30-35 | every slot of a list loses `localized_name` and keeps all its other fields |
| Workflow.StripNode | js/utils.js:29-36 | a node's input and output slot lists are stripped, absent lists stay absent and the other fields are unchanged |
| Workflow.StripLocalizedNames | js/utils.js:28-36 | every node of the serialised workflow is stripped in place |
| Workflow.GraphToPrompt | js/utils.js:3-155 | the workflow is stripped and the request is the built output, cleaned when `clean` is set |
| Tasks.Task.constructor | api/workflow.py:60-65 | a new task has its id, client id and data, status `pending` and no result or error |
| Tasks.Task.UpdateStatus | api/workflow.py:30-36 | the status is always set; error and result are replaced only when given (not None) |
| Tasks.Updated | api/workflow.py:32-36 | the new state has the given status; the error and the result are replaced exactly when a non-None one is given |
| Tasks.UpdateIdempotent | api/workflow.py:30-36 | applying the same update twice is the same as applying it once |
| Tasks.CheckConvert | api/workflow.py:50-56 | a convert request passes exactly when the `Client-Id` header is present and non-empty and the body decodes to a truthy value; otherwise 400 |
| Tasks.CheckCallback | api/workflow.py:125-146 | a callback is accepted exactly when its body is an object naming a known `task_id` and that task's `client_id`; else 400, or 500 for a truthy non-object body or a non-empty list or object `task_id`; an accepted callback reports the `error` if the key is present, else the `workflow` |
| Tasks.Answer | api/workflow.py:82-93 | a poll answers exactly when the task is completed (200 with its result) or failed (400 with its error, or "Conversion failed") |
| Tasks.Recorded | api/workflow.py:142-146 | a recorded outcome finishes the task: failed exactly when an error is reported, with `{"workflow": ...}` as result when converted, and the error replaced only when the reported one is not None |
| Tasks.PromotedAsWritten | api/workflow.py:150-151 | as written, the dequeued task becomes `processing` whatever its status, keeping its result and error |
| Tasks.Promoted | api/workflow.py:150-151 | as intended, only a pending head becomes `processing`; any other state is kept, so a task is finished afterwards exactly when it was before |
| Tasks.CallbackKeepsOutcome | api/workflow.py:142-146 | a valid callback leaves its task completed with `{"workflow": ...}` or failed with the reported error, and the intended dequeue never reopens a finished task |
| Tasks.AsWrittenReopens | api/workflow.py:148-151 | as written, dequeuing the task a callback just finished sets it back to `processing`, so a poll before its next callback does not answer it |
| Tasks.IntervalIndex | api/workflow.py:104 | the interval index is always in bounds, follows the poll count for the first two polls and stays at the last entry from the third on |
| Tasks.SleptBeforeClosedForm | api/workflow.py:103-105 | from the fourth check on (`n >= 3`, counting from 0), the requested sleep before check `n` totals 3000 ms plus 1500 ms per check after the fourth |
| Tasks.TimeoutByNinthCheck | api/workflow.py:96-105 | the timeout fires at the ninth check at the latest, and not before it when sleeps are exact |
| Tasks.AfterCallback | api/workflow.py:121-158 | a callback as written adds or removes no task; a rejected one changes nothing; an accepted one removes the queue head |
| Tasks.AfterCallbackElsewhere | api/workflow.py:141-151 | a callback changes only the task it names and the head of the queue |
| Tasks.AfterCallbacks | api/workflow.py:103-104 | a run of callbacks adds or removes no task and keeps every queued id a task |
| Tasks.AfterCallbacksStep | api/workflow.py:103-104 | one more callback applies `AfterCallback` to the state the earlier ones left |
| Tasks.QueueLosesOnlyHead | api/workflow.py:148-150 | callbacks only take entries off the head of the queue: what is left is a suffix of it |
| Tasks.DequeuedSnoc | api/workflow.py:149-156 | removing and sending one more head of the queue extends the run of dispatches by that head's message |
| Tasks.DequeuedTrans | api/workflow.py:103-104 | two runs of dequeue-and-send, one after the other, are one run |
| Tasks.Waited | api/workflow.py:96-105 | the state at each check of the polling loop has the same tasks as at its start |
| Tasks.StillWaitingStep | api/workflow.py:96-105 | a check that neither sees the task finished nor passes the timeout keeps the loop waiting |
| Tasks.WaitEndedAnswers | api/workflow.py:81-101 | however the wait ends, the task is answered as finished, or answered 408 and recorded as failed with "Task processing timeout" |
| Tasks.TaskStore.constructor | api/workflow.py:18-39 | the table and the queue start empty |
| Tasks.TaskStore.Submit | api/workflow.py:59-74 | an accepted request adds exactly one pending task with the given client id and data, to the table and to the tail of the queue, and sends it |
| Tasks.TaskStore.UpdateTask | api/workflow.py:143-146 | updating one task changes only that task's state |
| Tasks.TaskStore.DispatchNextAsWritten | api/workflow.py:148-158 | as written: with a non-empty queue, the head is removed, set to `processing` and sent; with an empty queue nothing changes |
| Tasks.TaskStore.DispatchNext | api/workflow.py:148-158 | as intended: the head is removed, and is set to `processing` and sent only if still pending; no finished task changes |
| Tasks.TaskStore.Record | api/workflow.py:124-146 | a rejected callback changes no task; an accepted one records its outcome on its task only |
| Tasks.TaskStore.Callback | api/workflow.py:121-176 | the callback as intended: rejection changes nothing; acceptance records the outcome, dequeues the head and leaves every finished task finished |
| Tasks.TaskStore.CallbackAsWritten | api/workflow.py:121-176 | the callback as written: rejection changes nothing; acceptance records the outcome, then reopens and resends the queue head |
| Tasks.TaskStore.Poll | api/workflow.py:81-101 | a finished task is answered unchanged; otherwise a timeout marks it failed with "Task processing timeout" and answers 408; otherwise polling goes on |
| Tasks.TaskStore.Turn | api/workflow.py:81-105 | one pass of the polling loop answers a finished task or a timed-out one without touching the queue; otherwise the callbacks of the following sleep run as `AfterCallbacks` gives, sending exactly the queue heads they remove |
| Tasks.TaskStore.Deliver | api/workflow.py:103-104 | the callbacks handled during a sleep, each run as written, add or remove no task and leave every task's state and the queue as `AfterCallbacks` gives them; the messages sent are exactly the re-dispatches of the queue heads they removed, in queue order |
| Tasks.TaskStore.AwaitOutcome | api/workflow.py:76-105 | polling adds or removes no task; it ends at the first check that finds the task finished, with that answer, or that passes the timeout, with 408 and the task marked failed with "Task processing timeout"; every task's state and the queue are then those of `Waited` at that check, and the messages sent are exactly the re-dispatches of the queue heads removed meanwhile; it always ends |
| Tasks.TaskStore.SubmitAndAwait | api/workflow.py:58-105 | the new task is stored, queued and sent first, then only the heads removed from the queue that includes it are sent, in order; the wait ends as `WaitEnded` describes from that table and queue |
| Tasks.TaskStore.Convert | api/workflow.py:45-119 | a rejected request is answered 400 with nothing changed and nothing sent; an accepted one adds one task, sends it first and then exactly the heads dequeued during the wait, and ends at the first check that sees it finished or timed out, with every task's state and the queue as `WaitEnded` describes |
| Tasks.ReopenedAsWritten | api/workflow.py:148-158 | as written, one submitted task and a valid callback for it leave the task `processing` and send it again; a second valid callback, with the queue now empty, leaves it `completed` |
| Tasks.StaysCompleted | api/workflow.py:148-158 | the same input leaves the task `completed` with the intended dequeue |
| Helper.HelperBodiesRejected | js/workflow-helper.js:26-56 | the helper's result and error bodies are always rejected, with "Client ID is required" for every known task |
| Helper.CorrectedBodiesAccepted | js/workflow-helper.js:26-56 | bodies that echo the dispatched `client_id` are accepted and report the output or the error |

## Left out

- The first pass of `graphToPrompt` (js/utils.js:5-23) is left out. It runs the `beforeQueued` and `applyToGraph` hooks, whose effects are foreign code.
- `graph.serialize()`, `computeExecutionOrder` and `getInnerNodes` are not modelled. The serialised workflow, the execution order and each node's inner nodes are inputs.
- `widget.serializeValue` is left out because it is foreign code; a widget contributes its `value`.
- `parent.updateLink` is left out because it is foreign code; the link reached is emitted unchanged.
- Only integral numbers are modelled, so floating-point widget values are not.
- Node ids are integers, so string ids are not modelled.
- Resolution.ResolveInput: the source loop has no bound and never ends on a cyclic chain of bypassed or virtual nodes. The model bounds the number of hops by `fuel` and reports `OutOfFuel` (the conversion fails with `Hang`); `ChaseFuelMonotone` shows the bound changes nothing once a walk ends.
- Resolution.BypassForwards: when the chosen input has no link, the stopped outcome is stated only for `fuel > 1`. The model takes one more hop before it observes the loop's exit.
- Property keys are compared as strings, with no special case for `__proto__` assignments.
- UUID generation is not modelled: the new task id is an input required to be fresh.
- Wall-clock time, `asyncio.sleep` and the event loop are replaced by an explicit clock of elapsed milliseconds at each check. Each check's time is at least the requested sleep so far.
- Tasks.TaskStore.Convert: only callbacks interleave with a waiting convert request, delivered in order during each sleep. Other convert requests that arrive meanwhile are not modelled.
- `created_at` is evaluated once, when the class is defined, and is never read, so it is not modelled.
- Logging and the `details` field of the 500 answer are left out. Within the model no input reaches the 500 branch of the convert handler.
- browser.py (the browser process), logger.py, `__init__.py`, the event listener and the network calls of js/workflow-helper.js are not part of this model.

## Findings

| source | as written | input that shows it | evidently intended | confidence | as-written member | corrected member |
|---|---|---|---|---|---|---|
| api/workflow.py:148-158 | `convert_json` both queues a task and dispatches it at once, so the head of the queue is usually the task whose callback is running. The callback completes that task and then sets the dequeued head back to `processing` and sends it again, whatever its status. | A single submitted task `t` of client `c`, then the callback `{"task_id": "t", "client_id": "c", "workflow": {}}`. The task ends `processing` and is sent to the page a second time, so it is converted twice. Its poller answers only after a second callback for it, which finds the queue empty and leaves it `completed`; if the re-sent task is never answered, the poller answers 408 at the timeout. | A dequeued task that has already finished is dropped. It is not reopened or sent again. | high; not executed | Tasks.ReopenedAsWritten | Tasks.TaskStore.Callback |
| js/workflow-helper.js:31-34 | The result body `{workflow, task_id}` and the error body `{task_id, error, status}` carry no `client_id`, but `convert_callback` requires one (api/workflow.py:133-135). | Any dispatched task: its callback is answered 400 "Client ID is required", and the task is never finished by its callback. | The callback echoes the `client_id` it was dispatched with. | high; not executed | Helper.HelperBodiesRejected | Helper.CorrectedBodiesAccepted |
