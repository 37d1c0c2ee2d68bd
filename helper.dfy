/** The callback requests the browser-side handler of `workflow_convert_queue`
    (js/workflow-helper.js) sends back to the backend, checked against the
    backend's callback validation. */
module Helper {
  import opened Values
  import opened Tasks

  /** Body sent after a successful conversion, as written. */
  function ResultBody(output: Json, taskId: string): Json {
    Obj(map["workflow" := output, "task_id" := Str(taskId)])
  }

  /** Body sent after a failed conversion, as written. */
  function ErrorBody(message: string, taskId: string): Json {
    Obj(map["task_id" := Str(taskId), "error" := Str(message), "status" := Str("failed")])
  }

  /** Neither body carries `client_id`, so the backend refuses both: with
      "Client ID is required" for every task it knows, and the task is never
      finished by its callback. */
  lemma HelperBodiesRejected(output: Json, message: string, taskId: string, owners: map<string, string>)
    ensures CheckCallback(Parsed(ResultBody(output, taskId)), owners).Rejected?
    ensures CheckCallback(Parsed(ErrorBody(message, taskId)), owners).Rejected?
    ensures taskId != "" && taskId in owners ==>
              CheckCallback(Parsed(ResultBody(output, taskId)), owners).response
                == ErrorResponse(400, Str("Client ID is required"))
              && CheckCallback(Parsed(ErrorBody(message, taskId)), owners).response
                == ErrorResponse(400, Str("Client ID is required"))
  {
    assert Get(ResultBody(output, taskId).fields, "client_id") == Null;
    assert Get(ErrorBody(message, taskId).fields, "client_id") == Null;
  }

  /** Body sent after a successful conversion, carrying the dispatched `client_id`. */
  function ResultBodyWithClient(output: Json, sent: Dispatch): Json {
    Obj(map["workflow" := output, "task_id" := Str(sent.taskId), "client_id" := Str(sent.clientId)])
  }

  /** Body sent after a failed conversion, carrying the dispatched `client_id`. */
  function ErrorBodyWithClient(message: string, sent: Dispatch): Json {
    Obj(map["task_id" := Str(sent.taskId), "error" := Str(message), "status" := Str("failed"),
            "client_id" := Str(sent.clientId)])
  }

  /** With the client id echoed back, the callback for a dispatched task is
      accepted and reports the conversion's output or its error. */
  lemma CorrectedBodiesAccepted(output: Json, message: string, sent: Dispatch, owners: map<string, string>)
    requires sent.taskId != "" && sent.clientId != ""
    requires sent.taskId in owners && owners[sent.taskId] == sent.clientId
    ensures CheckCallback(Parsed(ResultBodyWithClient(output, sent)), owners)
              == Accepted(sent.taskId, Converted(output))
    ensures CheckCallback(Parsed(ErrorBodyWithClient(message, sent)), owners)
              == Accepted(sent.taskId, Errored(Str(message)))
  {
    assert Authentic(ResultBodyWithClient(output, sent).fields, owners);
    assert Authentic(ErrorBodyWithClient(message, sent).fields, owners);
  }
}
