/** `query_video` in `vidu_mcp/server.py`: polling the task's creations
    endpoint until the task fails, succeeds or the attempt budget runs out.
    The server's answer to the k-th status fetch (counting from 0) is
    `answers(k)`; sleeps are recorded, not waited for. */
module Poller {
  import opened Wrappers
  import opened Strings
  import opened JsonValues
  import opened Errors
  import ApiClient

  /** At most this many status fetches. */
  const MaxRetries: nat := 30
  /** The argument of every `time.sleep` between fetches. */
  const RetryInterval: nat := 20

  /** The record `query_video` serialises on success. */
  datatype VideoRecord = VideoRecord(taskId: Json, status: string, videoUrl: Json)

  /** What a tool returns: the JSON text of a record (its exact formatting is
      not modelled) or an error string. */
  datatype ToolOutput = VideoJson(record: VideoRecord) | ErrorText(text: string)

  /** The result of one status fetch, as the loop reads it. */
  datatype Step =
    | Pending               // any state but "failed"/"success": sleep and poll again
    | Succeeded(url: Json)  // "success" with a truthy creation URL: leave the loop
    | Stopped(f: Failure)   // an exception ends the loop

  /** A finished poll: what `query_video` returned, every request it sent and
      every sleep it took. */
  datatype Run = Run(output: ToolOutput, sent: seq<ApiClient.HttpRequest>, sleeps: seq<nat>)

  /** `/ent/v2/tasks/{task_id}/creations`. */
  function CreationsEndpoint(taskId: Json): string {
    "/ent/v2/tasks/" + PyStr(taskId) + "/creations"
  }

  function FailedText(taskId: Json): string {
    "Video generation failed for task_id: " + PyStr(taskId)
  }

  function MissingUrlText(taskId: Json): string {
    "Missing creation_url in success response for task_id: " + PyStr(taskId)
  }

  function TimeoutText(taskId: Json): string {
    "Failed to get creation_url for task_id: " + PyStr(taskId)
  }

  /** `status_response.get("creations", [{}])[0].get("url")`. A missing
      `creations` key yields `None`; a non-list, an empty list or a first
      element that is not an object raises the exception Python raises. */
  function FirstCreationUrl(data: Fields): (r: Result<Json, Failure>)
    ensures "creations" !in data ==> r == Success(Null)
    ensures r.Failure? ==> r.error.Unexpected?
    ensures "creations" in data && data["creations"] == Array([]) ==>
      r == Failure(Unexpected("list index out of range"))
    ensures r.Success? && "creations" in data ==>
      data["creations"].Array? && |data["creations"].items| > 0 && data["creations"].items[0].Object?
      && r.value == Lookup(data["creations"].items[0].fields, "url")
    ensures "creations" in data && data["creations"].Array? && |data["creations"].items| > 0 ==>
      var first := data["creations"].items[0];
      if first.Object? then r == Success(Lookup(first.fields, "url"))
      else r == Failure(Unexpected("'" + TypeName(first) + "' object has no attribute 'get'"))
    ensures "creations" in data && data["creations"].String? ==>
      r == Failure(Unexpected(if data["creations"].s == "" then "string index out of range"
                              else "'str' object has no attribute 'get'"))
    ensures "creations" in data && data["creations"].Object? ==> r == Failure(Unexpected("0"))
    ensures "creations" in data && !data["creations"].Array? && !data["creations"].String?
            && !data["creations"].Object? ==>
      r == Failure(Unexpected("'" + TypeName(data["creations"]) + "' object is not subscriptable"))
  {
    if "creations" !in data then Success(Null)
    else
      match data["creations"]
      case Array(items) =>
        if |items| == 0 then Failure(Unexpected("list index out of range"))
        else if items[0].Object? then Success(Lookup(items[0].fields, "url"))
        else Failure(Unexpected("'" + TypeName(items[0]) + "' object has no attribute 'get'"))
      case String(s) =>
        if |s| == 0 then Failure(Unexpected("string index out of range"))
        else Failure(Unexpected("'str' object has no attribute 'get'"))
      case Object(_) => Failure(Unexpected("0"))  // KeyError(0): JSON keys are strings
      case other => Failure(Unexpected("'" + TypeName(other) + "' object is not subscriptable"))
  }

  /** One iteration of the loop body after the fetch. */
  function Classify(taskId: Json, fetched: Result<Fields, Failure>): (step: Step)
    ensures fetched.Failure? ==> step == Stopped(fetched.error)
    ensures fetched.Success? && Lookup(fetched.value, "state") == String("failed") ==>
      step == Stopped(RequestFailure(FailedText(taskId)))
    ensures fetched.Success? && Lookup(fetched.value, "state") == String("success") ==>
      match FirstCreationUrl(fetched.value)
      case Failure(e) => step == Stopped(e)
      case Success(url) => step == (if Truthy(url) then Succeeded(url) else Stopped(RequestFailure(MissingUrlText(taskId))))
    ensures step.Succeeded? ==>
      && fetched.Success? && Lookup(fetched.value, "state") == String("success")
      && FirstCreationUrl(fetched.value) == Success(step.url) && Truthy(step.url)
    ensures step.Pending? <==>
      fetched.Success? && Lookup(fetched.value, "state") != String("failed")
      && Lookup(fetched.value, "state") != String("success")
  {
    match fetched
    case Failure(e) => Stopped(e)
    case Success(data) =>
      var state := Lookup(data, "state");
      if state == String("failed") then Stopped(RequestFailure(FailedText(taskId)))
      else if state == String("success") then
        match FirstCreationUrl(data)
        case Failure(e) => Stopped(e)
        case Success(url) =>
          if Truthy(url) then Succeeded(url) else Stopped(RequestFailure(MissingUrlText(taskId)))
      else Pending
  }

  /** The step the loop takes on the k-th fetch. */
  function StepAt(taskId: Json, answers: nat -> ApiClient.Response, k: nat): Step {
    Classify(taskId, ApiClient.Interpret(answers(k)))
  }

  /** The string `query_video` returns when the loop ends with `step`. */
  function Finish(taskId: Json, step: Step): ToolOutput
    requires !step.Pending?
  {
    match step
    case Succeeded(url) => VideoJson(VideoRecord(taskId, "success", url))
    case Stopped(f) => ErrorText(Render(f))
  }

  /** Every request is a GET of `url`. */
  predicate AllStatusFetches(sent: seq<ApiClient.HttpRequest>, url: string) {
    forall i :: 0 <= i < |sent| ==> sent[i].verb == "GET" && sent[i].url == url
  }

  /** Every sleep lasts the retry interval. */
  predicate AllRetryWaits(sleeps: seq<nat>) {
    forall i :: 0 <= i < |sleeps| ==> sleeps[i] == RetryInterval
  }

  /** The first fetch from `attempt` on that is not "still processing", or
      `MaxRetries` when there is none. */
  function FirstNonPending(taskId: Json, answers: nat -> ApiClient.Response, attempt: nat): (k: nat)
    requires attempt <= MaxRetries
    ensures attempt <= k <= MaxRetries
    ensures PendingBetween(taskId, answers, attempt, k)
    ensures k < MaxRetries ==> !StepAt(taskId, answers, k).Pending?
    decreases MaxRetries - attempt
  {
    if attempt == MaxRetries || !StepAt(taskId, answers, attempt).Pending? then attempt
    else FirstNonPending(taskId, answers, attempt + 1)
  }

  /** The loop from fetch number `attempt` on. */
  function PollFrom(c: ApiClient.Client, taskId: Json, answers: nat -> ApiClient.Response, attempt: nat): (run: Run)
    requires attempt <= MaxRetries
    ensures AllStatusFetches(run.sent, c.apiHost + CreationsEndpoint(taskId))
    ensures ApiClient.AllCarry(run.sent, ApiClient.SetContentType(c.headers, false))
    ensures AllRetryWaits(run.sleeps)
    ensures var k := FirstNonPending(taskId, answers, attempt);
      && |run.sleeps| == k - attempt
      && (k < MaxRetries ==> run.output == Finish(taskId, StepAt(taskId, answers, k)) && |run.sent| == k + 1 - attempt)
      && (k == MaxRetries ==> run.output == ErrorText(Render(RequestFailure(TimeoutText(taskId))))
                              && |run.sent| == k - attempt)
    decreases MaxRetries - attempt
  {
    if attempt == MaxRetries then
      Run(ErrorText(Render(RequestFailure(TimeoutText(taskId)))), [], [])
    else
      var x := ApiClient.Get(c, CreationsEndpoint(taskId), answers(attempt));
      var step := Classify(taskId, x.result);
      if step.Pending? then
        ApiClient.SetContentTypeIdempotent(c.headers, false);
        var rest := PollFrom(x.client, taskId, answers, attempt + 1);
        Run(rest.output, [x.request] + rest.sent, [RetryInterval] + rest.sleeps)
      else
        Run(Finish(taskId, step), [x.request], [])
  }

  /** `query_video(task_id)`. */
  function QueryVideo(c: ApiClient.Client, taskId: Json, answers: nat -> ApiClient.Response): (run: Run)
    ensures 1 <= |run.sent| <= MaxRetries
    ensures AllStatusFetches(run.sent, c.apiHost + CreationsEndpoint(taskId))
    ensures ApiClient.AllCarry(run.sent, ApiClient.SetContentType(c.headers, false))
    ensures AllRetryWaits(run.sleeps)
    ensures |run.sleeps| + 1 == |run.sent|
         || (|run.sleeps| == |run.sent| == MaxRetries && run.output == ErrorText(Render(RequestFailure(TimeoutText(taskId)))))
  {
    PollFrom(c, taskId, answers, 0)
  }

  /** Fetches `from` up to but excluding `to` all said "still processing". */
  predicate PendingBetween(taskId: Json, answers: nat -> ApiClient.Response, from: nat, to: nat)
    decreases to - from
  {
    from < to ==> StepAt(taskId, answers, from).Pending? && PendingBetween(taskId, answers, from + 1, to)
  }

  /** The first fetch found by `FirstNonPending` is the first fetch after a
      run of "still processing" answers that is not one. */
  lemma {:induction false} FirstNonPendingIs(taskId: Json, answers: nat -> ApiClient.Response, attempt: nat, k: nat)
    requires attempt <= k <= MaxRetries
    requires PendingBetween(taskId, answers, attempt, k)
    requires k < MaxRetries ==> !StepAt(taskId, answers, k).Pending?
    ensures FirstNonPending(taskId, answers, attempt) == k
    decreases k - attempt
  {
    if attempt < k {
      FirstNonPendingIs(taskId, answers, attempt + 1, k);
    }
  }

  lemma PollStopsAtFirstTerminal(c: ApiClient.Client, taskId: Json,
                                 answers: nat -> ApiClient.Response, attempt: nat, k: nat)
    requires attempt <= k < MaxRetries
    requires PendingBetween(taskId, answers, attempt, k)
    requires !StepAt(taskId, answers, k).Pending?
    ensures var run := PollFrom(c, taskId, answers, attempt);
      && run.output == Finish(taskId, StepAt(taskId, answers, k))
      && |run.sent| == k + 1 - attempt && |run.sleeps| == k - attempt
  {
    FirstNonPendingIs(taskId, answers, attempt, k);
  }

  /** Thirty "still processing" answers: thirty fetches, thirty sleeps, then
      the timeout error. */
  lemma PollTimesOut(c: ApiClient.Client, taskId: Json, answers: nat -> ApiClient.Response, attempt: nat)
    requires attempt <= MaxRetries
    requires PendingBetween(taskId, answers, attempt, MaxRetries)
    ensures var run := PollFrom(c, taskId, answers, attempt);
      && run.output == ErrorText(ApiErrorPrefix + TimeoutText(taskId))
      && |run.sent| == |run.sleeps| == MaxRetries - attempt
  {
    FirstNonPendingIs(taskId, answers, attempt, MaxRetries);
  }

  /** A "failed" state ends the loop with the task-failed request error. */
  lemma FailedStateReportsTask(taskId: Json, data: Fields)
    requires Lookup(data, "state") == String("failed")
    ensures Finish(taskId, Classify(taskId, Success(data)))
         == ErrorText(ApiErrorPrefix + "Video generation failed for task_id: " + PyStr(taskId))
  {
  }

  /** "success" without a `creations` key falls back to `[{}]`, whose URL is
      `None`: the missing-URL request error. */
  lemma SuccessWithoutCreationsIsMissingUrl(taskId: Json, data: Fields)
    requires Lookup(data, "state") == String("success") && "creations" !in data
    ensures Finish(taskId, Classify(taskId, Success(data)))
         == ErrorText(ApiErrorPrefix + "Missing creation_url in success response for task_id: " + PyStr(taskId))
  {
  }

  /** "success" whose first creation has no truthy `url` (missing, `None`,
      empty) is the same missing-URL request error. */
  lemma SuccessWithFalsyUrlIsMissingUrl(taskId: Json, data: Fields, url: Json)
    requires Lookup(data, "state") == String("success") && FirstCreationUrl(data) == Success(url) && !Truthy(url)
    ensures Finish(taskId, Classify(taskId, Success(data)))
         == ErrorText(ApiErrorPrefix + "Missing creation_url in success response for task_id: " + PyStr(taskId))
  {
  }

  /** "success" with an empty creation list is an unexpected `IndexError`. */
  lemma SuccessWithEmptyCreationsIsUnexpected(taskId: Json, data: Fields)
    requires Lookup(data, "state") == String("success") && "creations" in data && data["creations"] == Array([])
    ensures Finish(taskId, Classify(taskId, Success(data)))
         == ErrorText(UnexpectedPrefix + "list index out of range")
  {
  }

  /** "success" with a truthy URL yields the record naming the task and that URL. */
  lemma SuccessWithUrlIsRecord(taskId: Json, data: Fields, url: Json)
    requires Lookup(data, "state") == String("success") && FirstCreationUrl(data) == Success(url) && Truthy(url)
    ensures Finish(taskId, Classify(taskId, Success(data))) == VideoJson(VideoRecord(taskId, "success", url))
  {
  }

  /** A failed fetch ends the loop with that failure's text. */
  lemma ClientFailureEndsPoll(taskId: Json, e: Failure)
    ensures Finish(taskId, Classify(taskId, Failure(e))) == ErrorText(Render(e))
  {
  }

  /** The answer the server gives while a task is still running. */
  function ProcessingAnswer(): ApiClient.Response {
    ApiClient.Body(map["state" := String("processing")])
  }

  /** The answer for a finished task with one creation at `url`. */
  function FinishedAnswer(url: string): ApiClient.Response {
    ApiClient.Body(map["state" := String("success"), "creations" := Array([Object(map["url" := String(url)])])])
  }

  lemma ProcessingIsPending(taskId: Json)
    ensures Classify(taskId, ApiClient.Interpret(ProcessingAnswer())) == Pending
  {
    assert ApiClient.Interpret(ProcessingAnswer()) == Success(map["state" := String("processing")]);
  }

  lemma FinishedIsSucceeded(taskId: Json, url: string)
    requires url != ""
    ensures Classify(taskId, ApiClient.Interpret(FinishedAnswer(url))) == Succeeded(String(url))
  {
    var done := map["state" := String("success"), "creations" := Array([Object(map["url" := String(url)])])];
    assert ApiClient.Interpret(FinishedAnswer(url)) == Success(done);
    assert FirstCreationUrl(done) == Success(String(url));
  }

  /** Two "processing" answers then a finished one: three fetches, two sleeps
      of twenty seconds, and the record with the creation URL. */
  lemma ProcessingThenSuccess(c: ApiClient.Client, taskId: Json, url: string, answers: nat -> ApiClient.Response)
    requires url != ""
    requires answers(0) == ProcessingAnswer() && answers(1) == ProcessingAnswer() && answers(2) == FinishedAnswer(url)
    ensures var run := QueryVideo(c, taskId, answers);
      && run.output == VideoJson(VideoRecord(taskId, "success", String(url)))
      && |run.sent| == 3 && run.sleeps == [RetryInterval, RetryInterval]
  {
    ProcessingIsPending(taskId);
    FinishedIsSucceeded(taskId, url);
    PollStopsAtFirstTerminal(c, taskId, answers, 0, 2);
    var run := QueryVideo(c, taskId, answers);
    assert run.sleeps[0] == RetryInterval && run.sleeps[1] == RetryInterval;
  }

  /** Seconds spent sleeping. */
  function TotalWait(sleeps: seq<nat>): nat {
    if |sleeps| == 0 then 0 else sleeps[0] + TotalWait(sleeps[1..])
  }

  lemma {:induction false} RetryWaitsTotal(sleeps: seq<nat>)
    requires AllRetryWaits(sleeps)
    ensures TotalWait(sleeps) == RetryInterval * |sleeps|
  {
    if |sleeps| > 0 {
      assert AllRetryWaits(sleeps[1..]) by {
        forall i | 0 <= i < |sleeps[1..]| ensures sleeps[1..][i] == RetryInterval {
          assert sleeps[1..][i] == sleeps[i + 1];
        }
      }
      RetryWaitsTotal(sleeps[1..]);
    }
  }

  /** `query_video` waits at most ten minutes: thirty sleeps of twenty seconds. */
  lemma QueryVideoWaitsAtMostTenMinutes(c: ApiClient.Client, taskId: Json, answers: nat -> ApiClient.Response)
    ensures TotalWait(QueryVideo(c, taskId, answers).sleeps) <= 600
  {
    RetryWaitsTotal(QueryVideo(c, taskId, answers).sleeps);
  }
}
