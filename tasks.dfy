/** Conversion task bookkeeping of the backend (api/workflow.py): the `Task`
    record and `update_status`, the in-memory `tasks` table and the FIFO
    `task_queue`, the two POST handlers and the polling loop of the convert
    handler. Wall-clock time is an explicit clock, `send_sync` messages and
    JSON responses are returned values, and the callbacks that run while the
    convert handler sleeps are an explicit input. */
module Tasks {
  import opened Wrappers
  import opened Values

  datatype Status = Pending | Processing | Completed | Failed

  predicate Finished(s: Status) {
    s == Completed || s == Failed
  }

  const TIMEOUT_MS: nat := 10000
  /** `POLLING_INTERVALS = [0.5, 1.0, 1.5]` seconds, in milliseconds. */
  const POLLING_INTERVALS_MS: seq<nat> := [500, 1000, 1500]

  const TIMEOUT_ERROR: string := "Task processing timeout"

  /** A request body as `await request.json()` leaves it: a decoding error
      (`json.JSONDecodeError`, a `ValueError`) or a decoded value. */
  datatype Body = Malformed(reason: string) | Parsed(value: Json)

  /** `web.json_response(body, status=code)` */
  datatype Response = Response(code: nat, body: map<string, Json>)

  /** `server.send_sync("workflow_convert_queue", {data, client_id, task_id})` */
  datatype Dispatch = Dispatch(data: Json, clientId: string, taskId: string)

  function ErrorResponse(code: nat, message: Json): Response {
    Response(code, map["status" := Str("error"), "message" := message])
  }

  const INTERNAL_ERROR: Response := ErrorResponse(500, Str("Internal server error"))
  const CALLBACK_OK: Response := Response(200, map["status" := Str("success")])
  const TIMEOUT_RESPONSE: Response := ErrorResponse(408, Str("Workflow conversion timeout"))

  /** The mutable part of a task; `Null` stands for Python's `None`. */
  datatype TaskState = TaskState(status: Status, result: Json, error: Json)

  /** `update_status` on a task's state. */
  function Updated(s: TaskState, status: Status, error: Json, result: Json): (u: TaskState)
    ensures u.status == status
    ensures error == Null ==> u.error == s.error
    ensures error != Null ==> u.error == error
    ensures result == Null ==> u.result == s.result
    ensures result != Null ==> u.result == result
  {
    TaskState(status, if result != Null then result else s.result, if error != Null then error else s.error)
  }

  /** Repeating an update changes nothing more. */
  lemma UpdateIdempotent(s: TaskState, status: Status, error: Json, result: Json)
    ensures Updated(Updated(s, status, error, result), status, error, result) == Updated(s, status, error, result)
  {
  }

  class Task {
    const id: string
    const clientId: string
    const data: Json
    var status: Status
    var result: Json
    var error: Json

    function State(): TaskState
      reads this
    {
      TaskState(status, result, error)
    }

    constructor (id: string, clientId: string, data: Json)
      ensures this.id == id && this.clientId == clientId && this.data == data
      ensures State() == TaskState(Pending, Null, Null)
    {
      this.id := id;
      this.clientId := clientId;
      this.data := data;
      status := Pending;
      result := Null;
      error := Null;
    }

    /** Always sets the status; replaces the error or the result only when one is given. */
    method UpdateStatus(status: Status, error: Json, result: Json)
      modifies this
      ensures this.status == status
      ensures this.error == (if error != Null then error else old(this.error))
      ensures this.result == (if result != Null then result else old(this.result))
      ensures State() == Updated(old(State()), status, error, result)
    {
      this.status := status;
      if error != Null {
        this.error := error;
      }
      if result != Null {
        this.result := result;
      }
    }
  }

  // -------------------------------------------------------------- validation

  /** Validation in `convert_json`: a non-empty `Client-Id` header, then a body
      that decodes to a truthy value. */
  function CheckConvert(clientIdHeader: Option<string>, body: Body): (r: Result<(string, Json), Response>)
    ensures r.Success? <==> clientIdHeader.Some? && clientIdHeader.value != "" && body.Parsed? && Truthy(body.value)
    ensures r.Success? ==> r.value == (clientIdHeader.value, body.value)
    ensures r.Failure? ==> r.error.code == 400
    ensures (clientIdHeader.None? || clientIdHeader == Some("")) ==>
              r == Failure(ErrorResponse(400, Str("Client-Id header is required")))
  {
    if clientIdHeader.None? || clientIdHeader.value == "" then
      Failure(ErrorResponse(400, Str("Client-Id header is required")))
    else if body.Malformed? then
      Failure(ErrorResponse(400, Str(body.reason)))
    else if !Truthy(body.value) then
      Failure(ErrorResponse(400, Str("Request body is required")))
    else
      Success((clientIdHeader.value, body.value))
  }

  /** What a valid callback reports: an error, or the converted workflow. */
  datatype Outcome = Errored(error: Json) | Converted(workflow: Json)

  datatype CallbackCheck = Accepted(taskId: string, outcome: Outcome) | Rejected(response: Response)

  /** A callback names a known task and that task's client. */
  predicate Authentic(fields: map<string, Json>, owners: map<string, string>) {
    var tid := Get(fields, "task_id");
    var cid := Get(fields, "client_id");
    Truthy(tid) && tid.Str? && tid.s in owners && Truthy(cid) && cid == Str(owners[tid.s])
  }

  /** Validation in `convert_callback`; `owners` maps each task id to its client id.
      A body that is not an object fails on `data.get` and a list or object as
      `task_id` fails on `in tasks` (unhashable): both end in the 500 handler. */
  function CheckCallback(body: Body, owners: map<string, string>): (r: CallbackCheck)
    ensures r.Accepted? <==> body.Parsed? && body.value.Obj? && Authentic(body.value.fields, owners)
    ensures r.Accepted? ==> r.taskId in owners
    ensures r.Accepted? ==>
              var fields := body.value.fields;
              r.outcome == if "error" in fields then Errored(Get(fields, "error")) else Converted(Get(fields, "workflow"))
    ensures r.Rejected? ==> r.response.code == 400 || r.response == INTERNAL_ERROR
    ensures r.Rejected? && r.response.code == 500 <==>
              body.Parsed? && Truthy(body.value)
              && (!body.value.Obj?
                  || (Truthy(Get(body.value.fields, "task_id"))
                      && (Get(body.value.fields, "task_id").Arr? || Get(body.value.fields, "task_id").Obj?)))
  {
    match body
    case Malformed(reason) => Rejected(ErrorResponse(400, Str(reason)))
    case Parsed(v) =>
      if !Truthy(v) then Rejected(ErrorResponse(400, Str("Request body is required")))
      else if !v.Obj? then Rejected(INTERNAL_ERROR)
      else
        var tid := Get(v.fields, "task_id");
        if !Truthy(tid) then Rejected(ErrorResponse(400, Str("Invalid task_id")))
        else if tid.Arr? || tid.Obj? then Rejected(INTERNAL_ERROR)
        else if !(tid.Str? && tid.s in owners) then Rejected(ErrorResponse(400, Str("Invalid task_id")))
        else
          var cid := Get(v.fields, "client_id");
          if !Truthy(cid) then Rejected(ErrorResponse(400, Str("Client ID is required")))
          else if cid != Str(owners[tid.s]) then Rejected(ErrorResponse(400, Str("Client ID mismatch")))
          else if "error" in v.fields then Accepted(tid.s, Errored(Get(v.fields, "error")))
          else Accepted(tid.s, Converted(Get(v.fields, "workflow")))
  }

  // ---------------------------------------------------------- state updates

  /** The task's state after a valid callback records its outcome. */
  function Recorded(s: TaskState, outcome: Outcome): (r: TaskState)
    ensures Finished(r.status) && (r.status == Failed <==> outcome.Errored?)
    ensures outcome.Converted? ==> r.result == Obj(map["workflow" := outcome.workflow]) && r.error == s.error
    ensures outcome.Errored? ==> r.result == s.result && r.error == if outcome.error != Null then outcome.error else s.error
  {
    match outcome
    case Errored(e) => Updated(s, Failed, e, Null)
    case Converted(w) => Updated(s, Completed, Null, Obj(map["workflow" := w]))
  }

  /** The head of the queue after the callback dequeues it, as written: always
      set back to processing and sent again. */
  function PromotedAsWritten(s: TaskState): (r: TaskState)
    ensures r == TaskState(Processing, s.result, s.error)
  {
    Updated(s, Processing, Null, Null)
  }

  /** The head of the queue after the callback dequeues it, as intended: only a
      task still pending is set to processing and sent; a finished one is dropped. */
  function Promoted(s: TaskState): (r: TaskState)
    ensures s.status == Pending ==> r == PromotedAsWritten(s)
    ensures s.status != Pending ==> r == s
    ensures Finished(r.status) <==> Finished(s.status)
  {
    if s.status == Pending then Updated(s, Processing, Null, Null) else s
  }

  /** The reply a poll gives for a stored state, if it stops polling. */
  function Answer(s: TaskState): (r: Option<Response>)
    ensures r.Some? <==> Finished(s.status)
    ensures r.Some? ==> (r.value.code == 200 <==> s.status == Completed)
    ensures s.status == Completed ==> r.Some? && "data" in r.value.body && r.value.body["data"] == s.result
    ensures s.status == Failed ==>
              r == Some(ErrorResponse(400, if Truthy(s.error) then s.error else Str("Conversion failed")))
  {
    match s.status
    case Completed =>
      Some(Response(200, map["status" := Str("success"),
                             "message" := Str("Workflow converted successfully"),
                             "data" := s.result]))
    case Failed =>
      Some(ErrorResponse(400, if Truthy(s.error) then s.error else Str("Conversion failed")))
    case _ => None
  }

  /** A valid callback leaves its task finished with the outcome it reports,
      and with the intended dequeue a finished task is never reopened, whichever
      task heads the queue. */
  lemma CallbackKeepsOutcome(s: TaskState, outcome: Outcome)
    ensures Finished(Recorded(s, outcome).status)
    ensures outcome.Errored? ==> Recorded(s, outcome).status == Failed
    ensures outcome.Converted? ==> Recorded(s, outcome) == TaskState(Completed, Obj(map["workflow" := outcome.workflow]), s.error)
    ensures outcome.Errored? && outcome.error != Null ==> Recorded(s, outcome).error == outcome.error
    ensures Promoted(Recorded(s, outcome)) == Recorded(s, outcome)
    ensures Finished(s.status) ==> Promoted(s) == s
  {
  }

  /** As written, a callback for the task at the head of the queue reopens it. */
  lemma AsWrittenReopens(s: TaskState, outcome: Outcome)
    ensures PromotedAsWritten(Recorded(s, outcome)).status == Processing
    ensures Answer(PromotedAsWritten(Recorded(s, outcome))).None?
  {
  }

  // ------------------------------------------------------------------ polling

  /** `min(current_interval, len(POLLING_INTERVALS) - 1)` */
  function IntervalIndex(currentInterval: nat): (i: nat)
    ensures i < |POLLING_INTERVALS_MS|
    ensures currentInterval >= |POLLING_INTERVALS_MS| - 1 ==> i == |POLLING_INTERVALS_MS| - 1
    ensures currentInterval < |POLLING_INTERVALS_MS| - 1 ==> i == currentInterval
  {
    if currentInterval < |POLLING_INTERVALS_MS| - 1 then currentInterval else |POLLING_INTERVALS_MS| - 1
  }

  /** Total sleep requested before the check numbered `n` (counting from 0). */
  function SleptBefore(n: nat): nat {
    if n == 0 then 0 else SleptBefore(n - 1) + POLLING_INTERVALS_MS[IntervalIndex(n - 1)]
  }

  lemma {:induction false} SleptBeforeClosedForm(n: nat)
    requires n >= 3
    ensures SleptBefore(n) == 3000 + 1500 * (n - 3)
  {
    if n > 3 {
      SleptBeforeClosedForm(n - 1);
    }
  }

  /** The timeout check fires at the ninth check at the latest (sleeps last at
      least as long as asked), and not before the ninth when sleeps are exact. */
  lemma TimeoutByNinthCheck(n: nat)
    ensures n >= 8 ==> SleptBefore(n) > TIMEOUT_MS
    ensures n <= 7 ==> SleptBefore(n) <= TIMEOUT_MS
  {
    if n >= 3 {
      SleptBeforeClosedForm(n);
    } else if n == 2 {
      assert SleptBefore(1) == 500;
    }
  }

  // ---------------------------------------------------- the wait, as values

  /** The ids of queued tasks, head first. */
  function Ids(ts: seq<Task>): (ids: seq<string>)
    ensures |ids| == |ts| && forall i :: 0 <= i < |ts| ==> ids[i] == ts[i].id
  {
    seq(|ts|, i requires 0 <= i < |ts| => ts[i].id)
  }

  /** The `send_sync` messages that dispatch the tasks `ts`, in order. */
  function Dispatches(ts: seq<Task>): (ds: seq<Dispatch>)
    ensures |ds| == |ts|
    ensures forall i :: 0 <= i < |ts| ==> ds[i] == Dispatch(ts[i].data, ts[i].clientId, ts[i].id)
  {
    seq(|ts|, i requires 0 <= i < |ts| => Dispatch(ts[i].data, ts[i].clientId, ts[i].id))
  }

  /** The queue went from `before` to `after` by dispatching exactly the
      heads `sent`, in order. */
  predicate Dequeued(before: seq<Task>, after: seq<Task>, sent: seq<Dispatch>) {
    |sent| <= |before| && after == before[|sent|..] && sent == Dispatches(before[..|sent|])
  }

  /** Dispatching the head of the queue extends the run by its message. */
  lemma DequeuedSnoc(before: seq<Task>, after: seq<Task>, sent: seq<Dispatch>)
    requires Dequeued(before, after, sent) && after != []
    ensures Dequeued(before, after[1..], sent + [Dispatch(after[0].data, after[0].clientId, after[0].id)])
  {
    var m := |sent|;
    assert before[m..][1..] == before[m + 1..];
    assert Dispatches(before[..m + 1]) == sent + [Dispatch(after[0].data, after[0].clientId, after[0].id)] by {
      assert |Dispatches(before[..m + 1])| == m + 1;
    }
  }

  /** Two runs of dispatches one after the other are one run. */
  lemma DequeuedTrans(before: seq<Task>, middle: seq<Task>, after: seq<Task>, sent: seq<Dispatch>, more: seq<Dispatch>)
    requires Dequeued(before, middle, sent) && Dequeued(middle, after, more)
    ensures Dequeued(before, after, sent + more)
  {
    var m, k := |sent|, |more|;
    assert before[m..][k..] == before[m + k..];
    assert before[m..][..k] == middle[..k];
    assert Dispatches(before[..m + k]) == sent + more by {
      assert |Dispatches(before[..m + k])| == m + k;
    }
  }

  /** Task states and queued ids that fit a table whose owners are `owners`. */
  predicate Coherent(owners: map<string, string>, view: map<string, TaskState>, queue: seq<string>) {
    owners.Keys == view.Keys && forall i :: 0 <= i < |queue| ==> queue[i] in view
  }

  /** Task states and queue after one run of `convert_callback` as written. */
  function AfterCallback(owners: map<string, string>, view: map<string, TaskState>, queue: seq<string>, body: Body)
    : (after: (map<string, TaskState>, seq<string>))
    requires Coherent(owners, view, queue)
    ensures Coherent(owners, after.0, after.1) && after.0.Keys == view.Keys
    ensures CheckCallback(body, owners).Rejected? ==> after == (view, queue)
    ensures CheckCallback(body, owners).Accepted? ==> after.1 == if queue == [] then [] else queue[1..]
  {
    var c := CheckCallback(body, owners);
    if c.Rejected? then (view, queue)
    else
      var recorded := view[c.taskId := Recorded(view[c.taskId], c.outcome)];
      if queue == [] then (recorded, [])
      else (recorded[queue[0] := PromotedAsWritten(recorded[queue[0]])], queue[1..])
  }

  /** A callback touches at most two tasks: the one it names and the head of
      the queue. */
  lemma AfterCallbackElsewhere(owners: map<string, string>, view: map<string, TaskState>, queue: seq<string>,
                               body: Body, k: string)
    requires Coherent(owners, view, queue) && k in view
    requires CheckCallback(body, owners).Rejected? || k != CheckCallback(body, owners).taskId
    requires queue == [] || k != queue[0]
    ensures AfterCallback(owners, view, queue, body).0[k] == view[k]
  {
  }

  /** Task states and queue after callbacks run one after the other. */
  function AfterCallbacks(owners: map<string, string>, view: map<string, TaskState>, queue: seq<string>, bodies: seq<Body>)
    : (after: (map<string, TaskState>, seq<string>))
    requires Coherent(owners, view, queue)
    ensures Coherent(owners, after.0, after.1) && after.0.Keys == view.Keys
    decreases |bodies|
  {
    if bodies == [] then (view, queue)
    else
      var before := AfterCallbacks(owners, view, queue, bodies[..|bodies| - 1]);
      AfterCallback(owners, before.0, before.1, bodies[|bodies| - 1])
  }

  /** One more callback extends the fold by one step. */
  lemma AfterCallbacksStep(owners: map<string, string>, view: map<string, TaskState>, queue: seq<string>,
                           bodies: seq<Body>, b: nat)
    requires Coherent(owners, view, queue) && b < |bodies|
    ensures var before := AfterCallbacks(owners, view, queue, bodies[..b]);
            AfterCallbacks(owners, view, queue, bodies[..b + 1]) == AfterCallback(owners, before.0, before.1, bodies[b])
  {
    assert bodies[..b + 1][..b] == bodies[..b];
  }

  /** Callbacks only ever take entries off the head of the queue. */
  lemma {:induction false} QueueLosesOnlyHead(owners: map<string, string>, view: map<string, TaskState>, queue: seq<string>, bodies: seq<Body>)
    requires Coherent(owners, view, queue)
    ensures var after := AfterCallbacks(owners, view, queue, bodies);
            |after.1| <= |queue| && after.1 == queue[|queue| - |after.1|..]
    decreases |bodies|
  {
    if bodies != [] {
      var before := AfterCallbacks(owners, view, queue, bodies[..|bodies| - 1]);
      QueueLosesOnlyHead(owners, view, queue, bodies[..|bodies| - 1]);
      var after := AfterCallback(owners, before.0, before.1, bodies[|bodies| - 1]);
      if before.1 != [] && after.1 != before.1 {
        assert before.1[1..] == queue[|queue| - |before.1| + 1..];
      }
    }
  }

  /** Task states and queue at check `n` of the polling loop: the callbacks of
      the first `n` sleeps applied in order. */
  function Waited(owners: map<string, string>, view: map<string, TaskState>, queue: seq<string>,
                  arrivals: seq<seq<Body>>, n: nat): (at: (map<string, TaskState>, seq<string>))
    requires Coherent(owners, view, queue) && n <= |arrivals|
    ensures Coherent(owners, at.0, at.1) && at.0.Keys == view.Keys
  {
    if n == 0 then (view, queue)
    else
      var before := Waited(owners, view, queue, arrivals, n - 1);
      AfterCallbacks(owners, before.0, before.1, arrivals[n - 1])
  }

  /** None of the first `n` checks of the polling loop for `taskId` saw the
      task finished or the timeout passed. */
  predicate StillWaiting(owners: map<string, string>, view: map<string, TaskState>, queue: seq<string>, taskId: string,
                         clock: seq<nat>, arrivals: seq<seq<Body>>, n: nat)
    requires Coherent(owners, view, queue) && taskId in view && n <= |clock| && n <= |arrivals|
  {
    forall m :: 0 <= m < n ==>
      clock[m] <= TIMEOUT_MS && !Finished(Waited(owners, view, queue, arrivals, m).0[taskId].status)
  }

  /** A check that neither finds the task finished nor passes the timeout
      keeps the loop waiting. */
  lemma StillWaitingStep(owners: map<string, string>, view: map<string, TaskState>, queue: seq<string>, taskId: string,
                         clock: seq<nat>, arrivals: seq<seq<Body>>, n: nat)
    requires Coherent(owners, view, queue) && taskId in view && n < |clock| && n < |arrivals|
    requires StillWaiting(owners, view, queue, taskId, clock, arrivals, n)
    requires clock[n] <= TIMEOUT_MS && !Finished(Waited(owners, view, queue, arrivals, n).0[taskId].status)
    ensures StillWaiting(owners, view, queue, taskId, clock, arrivals, n + 1)
  {
  }

  /** The polling loop for `taskId`, started from `view` and `queue`, ended at
      check `n` with `finalView`, `finalQueue` and `resp`: no earlier check saw
      the task finished or the timeout passed, and check `n` answered the
      finished task or timed it out. */
  predicate WaitEnded(owners: map<string, string>, view: map<string, TaskState>, queue: seq<string>, taskId: string,
                      clock: seq<nat>, arrivals: seq<seq<Body>>, n: nat,
                      finalView: map<string, TaskState>, finalQueue: seq<string>, resp: Response)
    requires Coherent(owners, view, queue) && taskId in view
  {
    && n < |clock| && n <= |arrivals|
    && StillWaiting(owners, view, queue, taskId, clock, arrivals, n)
    && var at := Waited(owners, view, queue, arrivals, n);
       && finalQueue == at.1
       && if Finished(at.0[taskId].status) then
            finalView == at.0 && Answer(at.0[taskId]) == Some(resp)
          else
            clock[n] > TIMEOUT_MS && resp == TIMEOUT_RESPONSE
            && finalView == at.0[taskId := Updated(at.0[taskId], Failed, Str(TIMEOUT_ERROR), Null)]
  }

  /** However the wait ends, the handler answers the finished task, or it
      answers 408 and records the timeout as the task's error. */
  lemma WaitEndedAnswers(owners: map<string, string>, view: map<string, TaskState>, queue: seq<string>, taskId: string,
                         clock: seq<nat>, arrivals: seq<seq<Body>>, n: nat,
                         finalView: map<string, TaskState>, finalQueue: seq<string>, resp: Response)
    requires Coherent(owners, view, queue) && taskId in view
    requires WaitEnded(owners, view, queue, taskId, clock, arrivals, n, finalView, finalQueue, resp)
    ensures taskId in finalView
    ensures Answer(finalView[taskId]) == Some(resp)
            || (resp == TIMEOUT_RESPONSE && finalView[taskId].status == Failed
                && finalView[taskId].error == Str(TIMEOUT_ERROR))
  {
  }

  // -------------------------------------------------------------- the store

  /** The module-level `tasks` dictionary and `task_queue`. Queue entries are
      the very `Task` objects of the table. */
  class TaskStore {
    var tasks: map<string, Task>
    var queue: seq<Task>

    ghost predicate Valid()
      reads this
    {
      && (forall k :: k in tasks ==> tasks[k].id == k && tasks[k].clientId != "")
      && (forall i :: 0 <= i < |queue| ==> queue[i].id in tasks && tasks[queue[i].id] == queue[i])
    }

    /** Task id to client id. */
    function Owners(): map<string, string>
      reads this
    {
      map k | k in tasks :: tasks[k].clientId
    }

    ghost function View(): map<string, TaskState>
      reads this, tasks.Values
    {
      map k | k in tasks :: tasks[k].State()
    }

    /** A valid store's task states and queued ids fit its owners. */
    lemma ValidCoherent()
      requires Valid()
      ensures Coherent(Owners(), View(), Ids(queue))
    {
    }

    constructor ()
      ensures Valid() && tasks == map[] && queue == []
    {
      tasks := map[];
      queue := [];
    }

    /** The accepted part of `convert_json`: a new pending task, stored, queued and sent. */
    method Submit(clientId: string, data: Json, taskId: string) returns (task: Task, sent: Dispatch)
      requires Valid() && clientId != "" && taskId !in tasks
      modifies this
      ensures Valid() && fresh(task)
      ensures tasks == old(tasks)[taskId := task] && queue == old(queue) + [task]
      ensures Owners() == old(Owners())[taskId := clientId]
      ensures task.id == taskId && task.clientId == clientId && task.data == data
      ensures View() == old(View())[taskId := TaskState(Pending, Null, Null)]
      ensures sent == Dispatch(data, clientId, taskId)
    {
      ghost var owners, view := Owners(), View();
      task := new Task(taskId, clientId, data);
      tasks := tasks[taskId := task];
      queue := queue + [task];
      assert Owners() == owners[taskId := clientId] by {
        assert Owners().Keys == owners.Keys + {taskId};
      }
      assert View() == view[taskId := TaskState(Pending, Null, Null)] by {
        assert View().Keys == view.Keys + {taskId};
        forall k | k in view ensures View()[k] == view[k] {
          assert tasks[k] == old(tasks)[k];
        }
      }
      sent := Dispatch(data, clientId, taskId);
    }

    /** `update_status` on the task under `id`: only that task's state changes. */
    method UpdateTask(id: string, status: Status, error: Json, result: Json)
      requires Valid() && id in tasks
      modifies tasks[id]
      ensures View() == old(View())[id := Updated(old(View())[id], status, error, result)]
    {
      tasks[id].UpdateStatus(status, error, result);
      forall k | k in tasks && k != id ensures tasks[k] != tasks[id] {
        assert tasks[k].id == k;
      }
    }

    /** `task_queue.get_nowait()` after a recorded outcome, as written: the head
        is set to processing and sent, whatever its status. */
    method DispatchNextAsWritten() returns (sent: Option<Dispatch>)
      requires Valid()
      modifies this, tasks.Values
      ensures Valid() && tasks == old(tasks)
      ensures old(queue) == [] ==> queue == [] && View() == old(View()) && sent == None
      ensures old(queue) != [] ==>
                var head := old(queue)[0];
                queue == old(queue)[1..]
                && View() == old(View())[head.id := PromotedAsWritten(old(View())[head.id])]
                && sent == Some(Dispatch(head.data, head.clientId, head.id))
    {
      if queue == [] {
        return None;
      }
      var head := queue[0];
      queue := queue[1..];
      UpdateTask(head.id, Processing, Null, Null);
      sent := Some(Dispatch(head.data, head.clientId, head.id));
    }

    /** The same step as intended: a head that already finished is dropped
        without being reopened or sent again. */
    method DispatchNext() returns (sent: Option<Dispatch>)
      requires Valid()
      modifies this, tasks.Values
      ensures Valid() && tasks == old(tasks)
      ensures old(queue) == [] ==> queue == [] && View() == old(View()) && sent == None
      ensures old(queue) != [] ==>
                var head := old(queue)[0];
                queue == old(queue)[1..]
                && View() == old(View())[head.id := Promoted(old(View())[head.id])]
                && sent == if old(View())[head.id].status == Pending
                           then Some(Dispatch(head.data, head.clientId, head.id)) else None
      ensures forall k :: k in old(View()) && Finished(old(View())[k].status) ==> View()[k] == old(View())[k]
    {
      if queue == [] {
        return None;
      }
      var head := queue[0];
      queue := queue[1..];
      if head.status == Pending {
        UpdateTask(head.id, Processing, Null, Null);
        sent := Some(Dispatch(head.data, head.clientId, head.id));
      } else {
        sent := None;
      }
    }

    /** Validation and the recorded outcome of `convert_callback`, before the dequeue. */
    method Record(body: Body) returns (check: CallbackCheck)
      requires Valid()
      modifies tasks.Values
      ensures Valid() && check == CheckCallback(body, Owners())
      ensures check.Rejected? ==> View() == old(View())
      ensures check.Accepted? ==>
                View() == old(View())[check.taskId := Recorded(old(View())[check.taskId], check.outcome)]
    {
      check := CheckCallback(body, Owners());
      if check.Accepted? {
        var id := check.taskId;
        assert id in tasks;
        match check.outcome {
          case Errored(e) => UpdateTask(id, Failed, e, Null);
          case Converted(w) => UpdateTask(id, Completed, Null, Obj(map["workflow" := w]));
        }
      }
    }

    /** `convert_callback` as intended (the dequeue of `DispatchNext`). */
    method Callback(body: Body) returns (resp: Response, sent: Option<Dispatch>)
      requires Valid()
      modifies this, tasks.Values
      ensures Valid() && tasks == old(tasks)
      ensures var c := CheckCallback(body, Owners());
              c.Rejected? ==> resp == c.response && sent == None && queue == old(queue) && View() == old(View())
      ensures var c := CheckCallback(body, Owners());
              c.Accepted? ==>
                var recorded := old(View())[c.taskId := Recorded(old(View())[c.taskId], c.outcome)];
                resp == CALLBACK_OK
                && View()[c.taskId] == Recorded(old(View())[c.taskId], c.outcome)
                && Finished(View()[c.taskId].status)
                && (old(queue) == [] ==> queue == [] && View() == recorded && sent == None)
                && (old(queue) != [] ==>
                      var head := old(queue)[0];
                      queue == old(queue)[1..]
                      && View() == recorded[head.id := Promoted(recorded[head.id])]
                      && sent == if recorded[head.id].status == Pending
                                 then Some(Dispatch(head.data, head.clientId, head.id)) else None)
      ensures forall k :: k in old(View()) && Finished(old(View())[k].status) ==> Finished(View()[k].status)
    {
      var check := Record(body);
      if check.Rejected? {
        return check.response, None;
      }
      CallbackKeepsOutcome(old(View())[check.taskId], check.outcome);
      sent := DispatchNext();
      resp := CALLBACK_OK;
    }

    /** `convert_callback` as written (the dequeue of `DispatchNextAsWritten`). */
    method CallbackAsWritten(body: Body) returns (resp: Response, sent: Option<Dispatch>)
      requires Valid()
      modifies this, tasks.Values
      ensures Valid() && tasks == old(tasks)
      ensures var c := CheckCallback(body, Owners());
              c.Rejected? ==> resp == c.response && sent == None && queue == old(queue) && View() == old(View())
      ensures var c := CheckCallback(body, Owners());
              c.Accepted? ==>
                var recorded := old(View())[c.taskId := Recorded(old(View())[c.taskId], c.outcome)];
                resp == CALLBACK_OK
                && (old(queue) == [] ==> queue == [] && View() == recorded && sent == None)
                && (old(queue) != [] ==>
                      var head := old(queue)[0];
                      queue == old(queue)[1..]
                      && View() == recorded[head.id := PromotedAsWritten(recorded[head.id])]
                      && sent == Some(Dispatch(head.data, head.clientId, head.id)))
      ensures Coherent(Owners(), old(View()), Ids(old(queue)))
              && (View(), Ids(queue)) == AfterCallback(Owners(), old(View()), Ids(old(queue)), body)
    {
      var check := Record(body);
      if check.Rejected? {
        return check.response, None;
      }
      ValidCoherent();
      sent := DispatchNextAsWritten();
      if old(queue) != [] {
        assert Ids(queue) == Ids(old(queue))[1..];
      }
      resp := CALLBACK_OK;
    }

    /** One pass of the polling loop of `convert_json`: answer if the task has
        finished, else give up if the timeout has passed, else keep waiting. */
    method Poll(taskId: string, timedOut: bool) returns (resp: Option<Response>)
      requires Valid() && taskId in tasks
      modifies tasks[taskId]
      ensures Finished(old(View())[taskId].status) ==>
                resp == Answer(old(View())[taskId]) && View() == old(View())
      ensures !Finished(old(View())[taskId].status) && timedOut ==>
                resp == Some(TIMEOUT_RESPONSE)
                && View() == old(View())[taskId := Updated(old(View())[taskId], Failed, Str(TIMEOUT_ERROR), Null)]
      ensures !Finished(old(View())[taskId].status) && !timedOut ==> resp.None? && View() == old(View())
    {
      var task := tasks[taskId];
      if task.status == Completed || task.status == Failed {
        return Answer(task.State());
      }
      if timedOut {
        UpdateTask(taskId, Failed, Str(TIMEOUT_ERROR), Null);
        return Some(TIMEOUT_RESPONSE);
      }
      return None;
    }

    /** The callbacks the server runs while the convert handler sleeps, in
        arrival order, each through `convert_callback` as written. */
    method Deliver(bodies: seq<Body>) returns (sent: seq<Dispatch>)
      requires Valid()
      modifies this, tasks.Values
      ensures Valid() && tasks == old(tasks)
      ensures Coherent(Owners(), old(View()), Ids(old(queue)))
              && (View(), Ids(queue)) == AfterCallbacks(Owners(), old(View()), Ids(old(queue)), bodies)
      ensures Dequeued(old(queue), queue, sent)
    {
      ValidCoherent();
      ghost var owners, view, queue0 := Owners(), View(), Ids(queue);
      ghost var q0 := queue;
      sent := [];
      var b := 0;
      while b < |bodies|
        invariant b <= |bodies|
        invariant Valid() && tasks == old(tasks) && Owners() == owners
        invariant Coherent(owners, view, queue0)
        invariant (View(), Ids(queue)) == AfterCallbacks(owners, view, queue0, bodies[..b])
        invariant Dequeued(q0, queue, sent)
      {
        AfterCallbacksStep(owners, view, queue0, bodies, b);
        ghost var before := queue;
        var _, s := CallbackAsWritten(bodies[b]);
        if s.Some? {
          DequeuedSnoc(q0, before, sent);
          sent := sent + [s.value];
        }
        b := b + 1;
      }
      assert bodies[..b] == bodies;
    }

    /** One pass of the polling loop of `convert_json`: the check, then, if the
        handler keeps waiting, the callbacks that arrive during its sleep. */
    method Turn(taskId: string, timedOut: bool, bodies: seq<Body>) returns (answer: Option<Response>, more: seq<Dispatch>)
      requires Valid() && taskId in tasks
      modifies this, tasks.Values
      ensures Valid() && tasks == old(tasks) && Owners() == old(Owners())
      ensures Coherent(Owners(), old(View()), Ids(old(queue)))
      ensures answer.Some? ==> queue == old(queue) && more == []
      ensures Finished(old(View())[taskId].status) ==>
                answer == Answer(old(View())[taskId]) && View() == old(View())
      ensures !Finished(old(View())[taskId].status) && timedOut ==>
                answer == Some(TIMEOUT_RESPONSE)
                && View() == old(View())[taskId := Updated(old(View())[taskId], Failed, Str(TIMEOUT_ERROR), Null)]
      ensures !Finished(old(View())[taskId].status) && !timedOut ==>
                answer.None? && Dequeued(old(queue), queue, more)
                && (View(), Ids(queue)) == AfterCallbacks(Owners(), old(View()), Ids(old(queue)), bodies)
    {
      ValidCoherent();
      answer := Poll(taskId, timedOut);
      if answer.Some? {
        return answer, [];
      }
      more := Deliver(bodies);
    }

    /** The polling loop of `convert_json` for the task under `taskId`.
        `clock[n]` is the elapsed time at the `n`-th check and `arrivals[n]`
        the callbacks the server runs while the handler sleeps after that
        check; `checks` is the number of the check that ended the loop. */
    method AwaitOutcome(taskId: string, clock: seq<nat>, arrivals: seq<seq<Body>>)
      returns (resp: Response, sent: seq<Dispatch>, checks: nat)
      requires Valid() && taskId in tasks
      requires |clock| == 9 && |arrivals| == 8
      requires forall n :: 0 <= n < |clock| ==> clock[n] >= SleptBefore(n)
      modifies this, tasks.Values
      ensures Valid() && tasks == old(tasks) && Owners() == old(Owners())
      ensures Coherent(Owners(), old(View()), Ids(old(queue)))
              && WaitEnded(Owners(), old(View()), Ids(old(queue)), taskId, clock, arrivals, checks, View(), Ids(queue), resp)
      ensures Answer(View()[taskId]) == Some(resp)
              || (resp == TIMEOUT_RESPONSE && View()[taskId].status == Failed
                  && View()[taskId].error == Str(TIMEOUT_ERROR))
      ensures Dequeued(old(queue), queue, sent)
    {
      ValidCoherent();
      ghost var owners, view, queue0 := Owners(), View(), Ids(queue);
      ghost var q0 := queue;
      sent := [];
      checks := 0;
      while true
        invariant checks <= 8
        invariant Valid() && tasks == old(tasks) && Owners() == owners
        invariant Coherent(owners, view, queue0)
        invariant (View(), Ids(queue)) == Waited(owners, view, queue0, arrivals, checks)
        invariant StillWaiting(owners, view, queue0, taskId, clock, arrivals, checks)
        invariant Dequeued(q0, queue, sent)
        decreases 8 - checks
      {
        ghost var middle := queue;
        // the ninth check always times out, so no sleep follows it
        var answer, more := Turn(taskId, clock[checks] > TIMEOUT_MS, if checks < 8 then arrivals[checks] else []);
        if answer.Some? {
          resp := answer.value;
          assert WaitEnded(owners, view, queue0, taskId, clock, arrivals, checks, View(), Ids(queue), resp);
          WaitEndedAnswers(owners, view, queue0, taskId, clock, arrivals, checks, View(), Ids(queue), resp);
          return;
        }
        TimeoutByNinthCheck(checks);
        StillWaitingStep(owners, view, queue0, taskId, clock, arrivals, checks);
        DequeuedTrans(q0, middle, queue, sent, more);
        sent := sent + more;
        checks := checks + 1;
      }
    }

    /** The accepted part of `convert_json`: the new task is stored, queued and
        sent, then polled until it finishes or times out. */
    method SubmitAndAwait(clientId: string, data: Json, taskId: string, clock: seq<nat>, arrivals: seq<seq<Body>>)
      returns (resp: Response, sent: seq<Dispatch>, checks: nat)
      requires Valid() && clientId != "" && taskId !in tasks
      requires |clock| == 9 && |arrivals| == 8
      requires forall n :: 0 <= n < |clock| ==> clock[n] >= SleptBefore(n)
      modifies this, tasks.Values
      ensures Valid()
      ensures taskId in tasks && tasks.Keys == old(tasks).Keys + {taskId}
              && tasks[taskId].clientId == clientId && tasks[taskId].data == data
              && sent != [] && sent[0] == Dispatch(data, clientId, taskId)
              && Owners() == old(Owners())[taskId := clientId]
      ensures Dequeued(old(queue) + [tasks[taskId]], queue, sent[1..])
      ensures Coherent(Owners(), old(View())[taskId := TaskState(Pending, Null, Null)], Ids(old(queue)) + [taskId])
              && WaitEnded(Owners(), old(View())[taskId := TaskState(Pending, Null, Null)],
                           Ids(old(queue)) + [taskId], taskId, clock, arrivals, checks, View(), Ids(queue), resp)
    {
      var task, first := Submit(clientId, data, taskId);
      ghost var owners, view, queue0 := Owners(), View(), Ids(queue);
      assert view == old(View())[taskId := TaskState(Pending, Null, Null)];
      assert queue0 == Ids(old(queue)) + [taskId];
      ValidCoherent();
      var later;
      resp, later, checks := AwaitOutcome(taskId, clock, arrivals);
      sent := [first] + later;
      assert sent[1..] == later;
    }

    /** `convert_json`: validation, the new task, then polling; `checks` is the
        number of the check that ended the wait. */
    method Convert(clientIdHeader: Option<string>, body: Body, taskId: string, clock: seq<nat>, arrivals: seq<seq<Body>>)
      returns (resp: Response, sent: seq<Dispatch>, checks: nat)
      requires Valid() && taskId !in tasks
      requires |clock| == 9 && |arrivals| == 8
      requires forall n :: 0 <= n < |clock| ==> clock[n] >= SleptBefore(n)
      modifies this, tasks.Values
      ensures Valid()
      ensures CheckConvert(clientIdHeader, body).Failure? ==>
                resp == CheckConvert(clientIdHeader, body).error && sent == []
                && tasks == old(tasks) && queue == old(queue) && View() == old(View())
      ensures CheckConvert(clientIdHeader, body).Success? ==>
                var (clientId, data) := CheckConvert(clientIdHeader, body).value;
                && taskId in tasks && tasks.Keys == old(tasks).Keys + {taskId}
                && tasks[taskId].clientId == clientId && tasks[taskId].data == data
                && sent != [] && sent[0] == Dispatch(data, clientId, taskId)
                && Owners() == old(Owners())[taskId := clientId]
                && Dequeued(old(queue) + [tasks[taskId]], queue, sent[1..])
                && Coherent(Owners(), old(View())[taskId := TaskState(Pending, Null, Null)], Ids(old(queue)) + [taskId])
                && WaitEnded(Owners(), old(View())[taskId := TaskState(Pending, Null, Null)],
                             Ids(old(queue)) + [taskId], taskId, clock, arrivals, checks, View(), Ids(queue), resp)
    {
      var checked := CheckConvert(clientIdHeader, body);
      if checked.Failure? {
        return checked.error, [], 0;
      }
      var (clientId, data) := checked.value;
      resp, sent, checks := SubmitAndAwait(clientId, data, taskId, clock, arrivals);
    }
  }

  const REOPEN_BODY: Body := Parsed(Obj(map["task_id" := Str("t"), "client_id" := Str("c"), "workflow" := Obj(map[])]))

  /** The input that shows the re-dispatch, as written: one submitted task and
      a valid callback for it leave that task in "processing" and send it
      again, so the conversion runs twice; only the second callback, with the
      queue now empty, leaves it "completed". */
  method ReopenedAsWritten() returns (first: Status, resent: Option<Dispatch>, second: Status)
    ensures first == Processing && resent == Some(Dispatch(Str("graph"), "c", "t"))
    ensures second == Completed
  {
    var store := new TaskStore();
    var task, _ := store.Submit("c", Str("graph"), "t");
    assert store.Owners() == map["t" := "c"];
    assert CheckCallback(REOPEN_BODY, store.Owners()) == Accepted("t", Converted(Obj(map[])));
    var _, s := store.CallbackAsWritten(REOPEN_BODY);
    assert store.View()["t"] == task.State();
    first, resent := task.status, s;
    assert store.Owners() == map["t" := "c"] && store.queue == [];
    var _, _ := store.CallbackAsWritten(REOPEN_BODY);
    assert store.View()["t"] == task.State();
    second := task.status;
  }

  /** The same input with the intended dequeue: the task stays "completed". */
  method StaysCompleted() returns (status: Status)
    ensures status == Completed
  {
    var store := new TaskStore();
    var task, _ := store.Submit("c", Str("graph"), "t");
    assert store.Owners() == map["t" := "c"];
    assert CheckCallback(REOPEN_BODY, store.Owners()) == Accepted("t", Converted(Obj(map[])));
    var _, _ := store.Callback(REOPEN_BODY);
    assert store.View()["t"] == task.State();
    status := task.status;
  }
}
