/**
 * Starting the recommendation computation on the worker: one POST carrying
 * the user's e-mail; on success the returned task id is remembered in
 * `localStorage` under `recommendation_task_id`, on failure the error is
 * rethrown to the caller.
 */
module RecommendationTask {
  import opened Wrappers
  import opened Browser

  /** A thrown value: an `Error` with its message, or anything else. */
  datatype Thrown = JsError(message: string) | NonError

  /** `error instanceof Error ? error.message : 'An unknown error occurred'`. */
  function ErrorMessage(e: Thrown): (m: string)
    ensures e.JsError? ==> m == e.message
    ensures e.NonError? ==> m == "An unknown error occurred"
  {
    match e
    case JsError(message) => message
    case NonError => "An unknown error occurred"
  }

  /** The parsed body of a successful start request. */
  datatype TaskStarted = TaskStarted(taskId: string, message: string)

  /**
   * What the worker's `/recommendations` endpoint does with the request:
   * `fetch` or `response.json()` throws, or a response arrives with its `ok`
   * flag and (when parsed) its body.
   */
  datatype StartReply = StartThrown(thrown: Thrown) | StartResponse(ok: bool, body: TaskStarted)

  /** The JSON body of the POST. */
  datatype StartRequest = StartRequest(email: string)

  const TaskIdKey := "recommendation_task_id"
  const StartFailedMessage := "Failed to start recommendation task"

  /** Only an ok response with a parsed body counts as a started task. */
  predicate StartSucceeds(reply: StartReply)
  {
    reply.StartResponse? && reply.ok
  }

  /** The value `startRecommendationTask` resolves to, or the error it rejects with. */
  function StartOutcome(reply: StartReply): (r: Result<TaskStarted, Thrown>)
    ensures r.Success? <==> StartSucceeds(reply)
    ensures r.Success? ==> r.value == reply.body
    ensures reply.StartThrown? ==> r == Failure(reply.thrown)
    ensures reply.StartResponse? && !reply.ok ==> r == Failure(JsError(StartFailedMessage))
  {
    match reply
    case StartThrown(e) => Failure(e)
    case StartResponse(ok, body) => if ok then Success(body) else Failure(JsError(StartFailedMessage))
  }

  /** The storage after the call: the task id is written exactly when the start succeeded. */
  function StoreAfterStart(items: Items, reply: StartReply): (r: Items)
    ensures StartSucceeds(reply) ==> Lookup(r, TaskIdKey) == Some(reply.body.taskId)
    ensures StartSucceeds(reply) ==> forall k :: k != TaskIdKey ==> Lookup(r, k) == Lookup(items, k)
    ensures !StartSucceeds(reply) ==> r == items
  {
    if StartSucceeds(reply) then Put(items, TaskIdKey, reply.body.taskId) else items
  }

  /**
   * `startRecommendationTask(userEmail)`: posts the e-mail, throws on a
   * failed response, otherwise stores the task id and returns the parsed body
   * unchanged.  Whatever was thrown reaches the caller unchanged.
   */
  method StartRecommendationTask(userEmail: string, reply: StartReply, store: Storage)
    returns (request: StartRequest, r: Result<TaskStarted, Thrown>)
    modifies store
    ensures request == StartRequest(userEmail)
    ensures r == StartOutcome(reply)
    ensures store.items == StoreAfterStart(old(store.items), reply)
  {
    request := StartRequest(userEmail);
    match reply {
      case StartThrown(e) =>
        r := Failure(e);
        return;
      case StartResponse(ok, data) =>
        if !ok {
          r := Failure(JsError(StartFailedMessage));
          return;
        }
        store.SetItem(TaskIdKey, data.taskId);
        r := Success(data);
    }
  }
}
