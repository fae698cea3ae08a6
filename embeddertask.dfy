/**
 * `pullEmbedderTask`: polls the worker's embedding-task status endpoint, at
 * most 31 times, one second apart.  Only the status `"completed"` ends the
 * polling successfully, and then starts the recommendation task; any other
 * status (including `"error"`) is retried until the attempt bound, and a
 * failed request or a thrown error ends the polling at once.
 *
 * The status endpoint is an oracle `server`: `server(k)` is what the k-th
 * status request (counting from 0) yields.
 */
module EmbedderTask {
  import opened Wrappers
  import opened Browser
  import opened RecommendationTask

  const PollInterval: nat := 1000
  const MaxAttempts: nat := 30

  const CompletedMessage := "Embedding task completed and recommendation task started"
  const TimeoutMessage := "Task polling timeout after 5 minutes"
  const StatusFailedMessage := "Failed to fetch task status"

  /** The status request's path on the worker: a fixed 22-character directory, then the task id. */
  function StatusPath(taskId: string): (path: string)
    ensures |path| == 22 + |taskId| && path[22..] == taskId
    ensures path[..22] == "/precompute-embedding/"
  {
    "/precompute-embedding/" + taskId
  }

  /** Distinct tasks are polled at distinct paths. */
  lemma StatusPathInjective(a: string, b: string)
    ensures StatusPath(a) == StatusPath(b) ==> a == b
  {
  }

  /** What one status request yields: a thrown error, or a response with its `ok` flag and `status` field. */
  datatype StatusReply = PollThrown(thrown: Thrown) | PollResponse(ok: bool, status: string)

  datatype TaskStatus = Pending | Completed | Error

  /** The object `pullEmbedderTask` resolves to. */
  datatype EmbedderResult = EmbedderResult(status: TaskStatus, message: string, recommendationTaskId: Option<string>)

  /** A failed run: it reports the message and yields no recommendation task. */
  function Failed(message: string): (failed: EmbedderResult)
    ensures failed.status == Error
    ensures failed.message == message && failed.recommendationTaskId == None
  {
    EmbedderResult(Error, message, None)
  }

  /** A reply that makes the poller start the recommendation task. */
  predicate IsCompletedReply(reply: StatusReply)
  {
    reply.PollResponse? && reply.ok && reply.status == "completed"
  }

  /** A reply after which the poller tries again (while attempts remain). */
  predicate IsPendingReply(reply: StatusReply)
  {
    reply.PollResponse? && reply.ok && reply.status != "completed"
  }

  /**
   * A whole polling run: its result, how many status requests it issued and
   * whether it called the recommendation starter.
   */
  datatype PollRun = PollRun(result: EmbedderResult, requests: nat, startedRecommendation: bool)

  /** The run of `pollTask` entered with the counter at `attempts`. */
  function Poll(server: nat -> StatusReply, starter: StartReply, attempts: nat): (run: PollRun)
    requires attempts <= MaxAttempts
    ensures attempts < run.requests <= MaxAttempts + 1
    decreases MaxAttempts - attempts
  {
    match server(attempts)
    case PollThrown(e) => PollRun(Failed(ErrorMessage(e)), attempts + 1, false)
    case PollResponse(ok, status) =>
      if !ok then PollRun(Failed(StatusFailedMessage), attempts + 1, false)
      else if status == "completed" then
        var result := match StartOutcome(starter)
          case Success(data) => EmbedderResult(Completed, CompletedMessage, Some(data.taskId))
          case Failure(e) => Failed(ErrorMessage(e));
        PollRun(result, attempts + 1, true)
      else if attempts >= MaxAttempts then PollRun(Failed(TimeoutMessage), attempts + 1, false)
      else Poll(server, starter, attempts + 1)
  }

  /** Every request of a run but the last got a pending reply. */
  lemma {:induction false} PollTrace(server: nat -> StatusReply, starter: StartReply, attempts: nat)
    requires attempts <= MaxAttempts
    ensures forall k :: attempts <= k < Poll(server, starter, attempts).requests - 1 ==> IsPendingReply(server(k))
    decreases MaxAttempts - attempts
  {
    if IsPendingReply(server(attempts)) && attempts < MaxAttempts {
      PollTrace(server, starter, attempts + 1);
    }
  }

  /**
   * The last reply alone decides the result: `completed` with the starter's
   * task id after a `"completed"` status and a successful start; the thrown
   * message, the failed-status message or the timeout message otherwise.  A
   * pending last reply only ends the run at the attempt bound, and the result
   * is never `pending`.
   */
  lemma {:induction false} PollLastReply(server: nat -> StatusReply, starter: StartReply, attempts: nat)
    requires attempts <= MaxAttempts
    ensures var run := Poll(server, starter, attempts);
      var last := server(run.requests - 1);
      && run.requests >= 1
      && run.result.status != Pending
      && (run.startedRecommendation <==> IsCompletedReply(last))
      && (run.result.status == Completed <==> IsCompletedReply(last) && StartSucceeds(starter))
      && (run.result.status == Completed ==>
            run.result == EmbedderResult(Completed, CompletedMessage, Some(starter.body.taskId)))
      && (IsCompletedReply(last) && !StartSucceeds(starter) ==>
            run.result == Failed(ErrorMessage(StartOutcome(starter).error)))
      && (last.PollThrown? ==> run.result == Failed(ErrorMessage(last.thrown)))
      && (last.PollResponse? && !last.ok ==> run.result == Failed(StatusFailedMessage))
      && (IsPendingReply(last) ==> run.requests == MaxAttempts + 1 && run.result == Failed(TimeoutMessage))
    decreases MaxAttempts - attempts
  {
    if IsPendingReply(server(attempts)) && attempts < MaxAttempts {
      PollLastReply(server, starter, attempts + 1);
    }
  }

  /**
   * Polling stops at the first reply that is not pending: a run whose replies
   * from `attempts` on are pending up to index `k` and decisive at `k` issues
   * exactly `k + 1` requests.
   */
  lemma PollStopsAtFirstDecisiveReply(server: nat -> StatusReply, starter: StartReply, attempts: nat, k: nat)
    requires attempts <= k <= MaxAttempts
    requires forall j :: attempts <= j < k ==> IsPendingReply(server(j))
    requires !IsPendingReply(server(k))
    ensures Poll(server, starter, attempts).requests == k + 1
  {
    PollTrace(server, starter, attempts);
    PollLastReply(server, starter, attempts);
  }

  /**
   * A server that never answers `"completed"` (for instance one answering
   * `"error"` every time) is polled until the bound and yields the timeout.
   */
  lemma PollTimesOut(server: nat -> StatusReply, starter: StartReply)
    requires forall j :: 0 <= j <= MaxAttempts ==> IsPendingReply(server(j))
    ensures Poll(server, starter, 0).requests == MaxAttempts + 1
    ensures Poll(server, starter, 0).result == Failed(TimeoutMessage)
    ensures !Poll(server, starter, 0).startedRecommendation
  {
    PollTrace(server, starter, 0);
    PollLastReply(server, starter, 0);
  }

  /**
   * `pullEmbedderTask(taskId, userEmail)`.  Returns the result, the status
   * paths requested in order, the requests sent to the recommendation starter,
   * the final value of the attempt counter and the time spent sleeping
   * between polls.
   */
  method PullEmbedderTask(taskId: string, userEmail: string, server: nat -> StatusReply,
                          starter: StartReply, store: Storage)
    returns (r: EmbedderResult, polls: seq<string>, starts: seq<StartRequest>, attempts: nat, sleptMs: nat)
    modifies store
    ensures var run := Poll(server, starter, 0);
      && r == run.result
      && |polls| == run.requests
      && attempts == run.requests - 1
      && sleptMs == attempts * PollInterval
      && starts == (if run.startedRecommendation then [StartRequest(userEmail)] else [])
      && store.items == (if run.startedRecommendation then StoreAfterStart(old(store.items), starter)
                         else old(store.items))
    ensures forall i :: 0 <= i < |polls| ==> polls[i] == StatusPath(taskId)
  {
    attempts, sleptMs := 0, 0;
    polls, starts := [], [];
    while true
      invariant attempts <= MaxAttempts
      invariant |polls| == attempts && sleptMs == attempts * PollInterval
      invariant forall i :: 0 <= i < |polls| ==> polls[i] == StatusPath(taskId)
      invariant starts == [] && store.items == old(store.items)
      invariant Poll(server, starter, 0) == Poll(server, starter, attempts)
      decreases MaxAttempts - attempts
    {
      polls := polls + [StatusPath(taskId)];
      match server(attempts) {
        case PollThrown(e) =>
          r := Failed(ErrorMessage(e));
          return;
        case PollResponse(ok, status) =>
          if !ok {
            r := Failed(StatusFailedMessage);
            return;
          }
          if status == "completed" {
            var request, started := StartRecommendationTask(userEmail, starter, store);
            starts := [request];
            match started {
              case Success(data) => r := EmbedderResult(Completed, CompletedMessage, Some(data.taskId));
              case Failure(e) => r := Failed(ErrorMessage(e));
            }
            return;
          }
          if attempts >= MaxAttempts {
            r := Failed(TimeoutMessage);
            return;
          }
          sleptMs := sleptMs + PollInterval;
          attempts := attempts + 1;
      }
    }
  }

  /**
   * After a completed run the task id written to the store is the one the
   * result reports.
   */
  lemma CompletedStoresTaskId(server: nat -> StatusReply, starter: StartReply, items: Items)
    requires Poll(server, starter, 0).result.status == Completed
    ensures Poll(server, starter, 0).startedRecommendation
    ensures Lookup(StoreAfterStart(items, starter), TaskIdKey) == Poll(server, starter, 0).result.recommendationTaskId
  {
    PollLastReply(server, starter, 0);
  }
}
