/** The front end's API client: the request primitive (`makeRequest`) and the
    submit-then-poll orchestration of one transcription job (`transcribeAudio`). */
module ApiService {
  import opened Types

  const BaseUrl: string := "http://localhost:8000"
  const CurrentVersion: string := "1.0.0"
  const SubmitEndpoint: string := "/transcribe"
  const StatusEndpoint: string := "/transcribe/status/"
  const SubmitFailed: string := "Failed to initiate transcription."
  const TaskFailed: string := "Transcription task failed."
  const RequestFailedPrefix: string := "Request failed: "

  datatype Method = GET | POST | PUT | DELETE

  datatype FormValue = Text(text: string) | File(blob: Blob)
  datatype FormField = FormField(name: string, value: FormValue)

  /** A request body: multipart form data, or a plain object to be serialised. */
  datatype Body = FormData(fields: seq<FormField>) | PlainObject(entries: map<string, string>)

  /** What goes on the wire: nothing, the form untouched, or the JSON text of the object
      (the textual encoding itself is not modelled). */
  datatype SentBody = NoBody | Multipart(fields: seq<FormField>) | JsonText(entries: map<string, string>)

  datatype Request = Request(url: string, verb: Method, headers: map<string, string>, body: SentBody)

  /** How the network call ended: a parsed JSON payload, or an exception with its message. */
  datatype FetchOutcome<T> = Parsed(payload: T) | Threw(reason: string)

  /** The client's uniform result shape: data on success, an error message otherwise. */
  datatype ApiResponse<T> = WithData(data: T) | WithError(error: string)

  /** What the client reads from the submission reply. */
  datatype SubmitPayload = SubmitPayload(taskId: Option<string>)

  /** What the client reads from a status reply. */
  datatype StatusPayload = StatusPayload(status: Status, progress: Option<int>, transcription: Option<string>)

  datatype Exchange<T> = Exchange(request: Request, response: ApiResponse<T>)

  /** The headers of every request: the caller identity (empty when unset), the API
      version, and a JSON content type exactly when a non-form body is present. */
  function RequestHeaders(userId: Option<string>, body: Option<Body>): (h: map<string, string>)
    ensures "X-User-ID" in h && h["X-User-ID"] == userId.GetOr("")
    ensures "X-API-Version" in h && h["X-API-Version"] == CurrentVersion
    ensures "Content-Type" in h <==> body.Some? && !body.value.FormData?
    ensures "Content-Type" in h ==> h["Content-Type"] == "application/json"
    ensures h.Keys <= {"X-User-ID", "X-API-Version", "Content-Type"}
  {
    var base := map["X-User-ID" := OrElse(userId.GetOr(""), ""), "X-API-Version" := CurrentVersion];
    if body.Some? && !body.value.FormData? then base["Content-Type" := "application/json"] else base
  }

  /** Form data is sent as it is; any other body is serialised to JSON. */
  function WireBody(body: Option<Body>): (b: SentBody)
    ensures body.None? <==> b.NoBody?
    ensures body.Some? && body.value.FormData? ==> b == Multipart(body.value.fields)
    ensures body.Some? && body.value.PlainObject? ==> b == JsonText(body.value.entries)
  {
    match body
    case None => NoBody
    case Some(FormData(fields)) => Multipart(fields)
    case Some(PlainObject(entries)) => JsonText(entries)
  }

  /** The error message of a request that threw. */
  function FailureMessage(reason: string): (m: string)
    ensures |m| >= |RequestFailedPrefix| && m[..|RequestFailedPrefix|] == RequestFailedPrefix
    ensures m[|RequestFailedPrefix|..] == reason
    ensures m != ""
  {
    RequestFailedPrefix + reason
  }

  /** The request `makeRequest` sends: the base URL joined with the endpoint, the
      method, the headers and the body as above. */
  function BuildRequest(userId: Option<string>, endpoint: string, verb: Method, body: Option<Body>): (r: Request)
    ensures r.url == BaseUrl + endpoint && r.verb == verb
    ensures r.headers == RequestHeaders(userId, body) && r.body == WireBody(body)
  {
    Request(BaseUrl + endpoint, verb, RequestHeaders(userId, body), WireBody(body))
  }

  /** How `makeRequest` reports the call's end. It never throws: a parsed payload
      becomes data, an exception an error that starts with "Request failed: ". */
  function Settle<T>(outcome: FetchOutcome<T>): (r: ApiResponse<T>)
    ensures r.WithData? <==> outcome.Parsed?
    ensures outcome.Parsed? ==> r.data == outcome.payload
    ensures outcome.Threw? ==> r.error == FailureMessage(outcome.reason)
    ensures r.WithError? ==> r.error != ""
  {
    match outcome
    case Parsed(payload) => WithData(payload)
    case Threw(reason) => WithError(FailureMessage(reason))
  }

  /** One call of the request primitive: what is sent and what the caller gets back. */
  function MakeRequest<T>(userId: Option<string>, endpoint: string, verb: Method,
                          body: Option<Body>, outcome: FetchOutcome<T>): (x: Exchange<T>)
    ensures x.request.url == BaseUrl + endpoint && x.request.verb == verb
    ensures x.response.WithData? <==> outcome.Parsed?
  {
    Exchange(BuildRequest(userId, endpoint, verb, body), Settle(outcome))
  }

  /** The multipart form a job is submitted with. */
  function SubmitForm(j: TranscriptionJob): (b: Body)
    ensures b.FormData? && |b.fields| == 3
    ensures b.fields[0] == FormField("id", Text(j.id))
    ensures b.fields[1] == FormField("audio", File(j.audioBlob))
    ensures b.fields[2] == FormField("aiProvider", Text(ProviderName(j.aiProvider)))
  {
    FormData([FormField("id", Text(j.id)), FormField("audio", File(j.audioBlob)),
              FormField("aiProvider", Text(ProviderName(j.aiProvider)))])
  }

  /** The task handle of a submission reply, or the error that stops the job before
      any poll: the transport error, else the fixed submission failure (a missing or
      empty task id). */
  function SubmitHandle(resp: ApiResponse<SubmitPayload>): (r: ApiResponse<string>)
    ensures r.WithData? <==> resp.WithData? && resp.data.taskId.Some? && resp.data.taskId.value != ""
    ensures r.WithData? ==> r.data == resp.data.taskId.value
    ensures r.WithError? && resp.WithError? && resp.error != "" ==> r.error == resp.error
    ensures r.WithError? && !(resp.WithError? && resp.error != "") ==> r.error == SubmitFailed
  {
    match resp
    case WithError(e) => WithError(OrElse(e, SubmitFailed))
    case WithData(SubmitPayload(taskId)) =>
      if taskId.Some? && taskId.value != "" then WithData(taskId.value) else WithError(SubmitFailed)
  }

  /** A poll response that ends the loop: a transport error, or a terminal status. */
  predicate Terminal(resp: ApiResponse<StatusPayload>) {
    resp.WithError? || resp.data.status == Complete || resp.data.status == Error
  }

  /** `progress || 0`. */
  function ProgressOrZero(p: Option<int>): int {
    p.GetOr(0)
  }

  /** What one poll tick decides: keep polling, or settle the job's promise. */
  datatype Tick = KeepPolling | Resolve(response: ApiResponse<TranscriptionJob>)

  datatype StepResult = StepResult(job: TranscriptionJob, tick: Tick, reported: Option<int>)

  /** One poll tick applied to the job (`pollStatus`): the job afterwards, the tick's
      decision, and the value handed to the progress observer, if any. */
  function Step(j: TranscriptionJob, resp: ApiResponse<StatusPayload>): (s: StepResult)
    // only status, progress and transcription can change
    ensures s.job == j.(status := s.job.status, progress := s.job.progress, transcription := s.job.transcription)
    // a transport error settles with that error and leaves the job as it was
    ensures resp.WithError? ==> s == StepResult(j, Resolve(WithError(resp.error)), None)
    // a status reply is recorded and reported to the observer, terminal or not
    ensures resp.WithData? ==> s.job.status == resp.data.status
    ensures resp.WithData? ==> s.reported == Some(ProgressOrZero(resp.data.progress))
    ensures resp.WithData? && resp.data.status != Complete ==>
              s.job.progress == ProgressOrZero(resp.data.progress) && s.job.transcription == j.transcription
    // completion pins progress to 100 and stores the transcript
    ensures resp.WithData? && resp.data.status == Complete ==>
              s.job.progress == 100 && s.job.transcription == Some(TextOrEmpty(resp.data.transcription))
              && s.tick == Resolve(WithData(s.job))
    ensures resp.WithData? && resp.data.status == Error ==> s.tick == Resolve(WithError(TaskFailed))
    ensures s.tick.Resolve? <==> Terminal(resp)
  {
    match resp
    case WithError(e) => StepResult(j, Resolve(WithError(e)), None)
    case WithData(StatusPayload(status, progress, transcription)) =>
      var reported := ProgressOrZero(progress);
      var j1 := j.(status := status, progress := reported);
      if status == Complete then
        var j2 := j1.(transcription := Some(TextOrEmpty(transcription)), progress := 100);
        StepResult(j2, Resolve(WithData(j2)), Some(reported))
      else if status == Error then
        StepResult(j1, Resolve(WithError(TaskFailed)), Some(reported))
      else
        StepResult(j1, KeepPolling, Some(reported))
  }

  /** The outcome of polling over a finite run of responses. */
  datatype PollRun = PollRun(job: TranscriptionJob, resolution: Option<ApiResponse<TranscriptionJob>>,
                             reports: seq<int>, consumed: nat)

  function Reported(r: Option<int>): seq<int> {
    if r.Some? then [r.value] else []
  }

  /** The poll loop over the given responses: it applies ticks until the first terminal
      response, and stops there. */
  function Poll(j: TranscriptionJob, resps: seq<ApiResponse<StatusPayload>>): (run: PollRun)
    ensures run.consumed <= |resps|
    ensures run.resolution.Some? <==> exists k :: 0 <= k < |resps| && Terminal(resps[k])
    ensures run.resolution.Some? ==> 0 < run.consumed && Terminal(resps[run.consumed - 1])
    ensures forall k :: 0 <= k < run.consumed - 1 ==> !Terminal(resps[k])
    ensures run.resolution.None? ==> run.consumed == |resps|
    ensures |run.reports| <= run.consumed
    ensures run.job.id == j.id && run.job.audioBlob == j.audioBlob && run.job.aiProvider == j.aiProvider
    // a success carries the final job, completed with progress 100 and a transcript
    ensures run.resolution.Some? && run.resolution.value.WithData? ==>
              && run.resolution.value.data == run.job && run.job.status == Complete
              && run.job.progress == 100 && run.job.transcription.Some?
    // a failure is the last response's transport error, or the fixed task failure
    ensures run.resolution.Some? && run.resolution.value.WithError? ==>
              if resps[run.consumed - 1].WithError? then run.resolution.value.error == resps[run.consumed - 1].error
              else run.resolution.value.error == TaskFailed && run.job.status == Error
    decreases |resps|
  {
    if resps == [] then PollRun(j, None, [], 0)
    else
      var s := Step(j, resps[0]);
      if s.tick.Resolve? then PollRun(s.job, Some(s.tick.response), Reported(s.reported), 1)
      else
        var rest := Poll(s.job, resps[1..]);
        assert forall k :: 1 <= k < |resps| ==> resps[k] == resps[1..][k - 1];
        PollRun(rest.job, rest.resolution, Reported(s.reported) + rest.reports, rest.consumed + 1)
  }

  /** Responses that arrive after the terminal one are never looked at. */
  lemma {:induction false} PollIgnoresLaterResponses(j: TranscriptionJob, resps: seq<ApiResponse<StatusPayload>>,
                                                     later: seq<ApiResponse<StatusPayload>>)
    requires Poll(j, resps).resolution.Some?
    ensures Poll(j, resps + later) == Poll(j, resps)
    decreases |resps|
  {
    assert resps != [];
    assert (resps + later)[0] == resps[0];
    var s := Step(j, resps[0]);
    if !s.tick.Resolve? {
      assert (resps + later)[1..] == resps[1..] + later;
      PollIgnoresLaterResponses(s.job, resps[1..], later);
    }
  }

  /** The progress observer hears once from every status reply consumed, terminal or
      not, in order, with the reply's progress or 0; only a transport error goes
      unreported. */
  lemma {:induction false} PollReports(j: TranscriptionJob, resps: seq<ApiResponse<StatusPayload>>)
    ensures var run := Poll(j, resps);
            && |run.reports| == run.consumed - (if run.resolution.Some? && resps[run.consumed - 1].WithError? then 1 else 0)
            && forall k :: 0 <= k < |run.reports| ==>
                 resps[k].WithData? && run.reports[k] == ProgressOrZero(resps[k].data.progress)
    decreases |resps|
  {
    if resps != [] {
      var s := Step(j, resps[0]);
      if !s.tick.Resolve? {
        PollReports(s.job, resps[1..]);
        var rest := Poll(s.job, resps[1..]);
        if rest.resolution.Some? {
          assert resps[rest.consumed] == resps[1..][rest.consumed - 1];
        }
        var reports := Reported(s.reported) + rest.reports;
        assert forall k :: 1 <= k < |reports| ==> reports[k] == rest.reports[k - 1] && resps[k] == resps[1..][k - 1];
      }
    }
  }

  /** A transport error leaves the job as the status replies before it made it. */
  lemma {:induction false} PollTransportErrorKeepsJob(j: TranscriptionJob, resps: seq<ApiResponse<StatusPayload>>)
    requires Poll(j, resps).resolution.Some?
    requires resps[Poll(j, resps).consumed - 1].WithError?
    ensures var run := Poll(j, resps);
            run.job == Poll(j, resps[..run.consumed - 1]).job && run.resolution.value.WithError?
    decreases |resps|
  {
    var run := Poll(j, resps);
    var s := Step(j, resps[0]);
    if s.tick.Resolve? {
      assert resps[..run.consumed - 1] == [];
    } else {
      var rest := Poll(s.job, resps[1..]);
      assert resps[1..][rest.consumed - 1] == resps[rest.consumed];
      PollTransportErrorKeepsJob(s.job, resps[1..]);
      var before := resps[..run.consumed - 1];
      assert before != [] && before[0] == resps[0] && before[1..] == resps[1..][..rest.consumed - 1];
    }
  }

  /** When the loop ends on a status reply, the job is what that reply's tick makes of the
      job the earlier replies left, and the outcome is that tick's: on completion, the
      reply's transcript (or "") at 100. */
  lemma {:induction false} PollSettlesOnStatusReply(j: TranscriptionJob, resps: seq<ApiResponse<StatusPayload>>)
    requires Poll(j, resps).resolution.Some?
    requires resps[Poll(j, resps).consumed - 1].WithData?
    ensures var run := Poll(j, resps);
            var last := resps[run.consumed - 1];
            var s := Step(Poll(j, resps[..run.consumed - 1]).job, last);
            && run.job == s.job && run.resolution == Some(s.tick.response)
            && (last.data.status == Complete ==>
                  run.job.transcription == Some(TextOrEmpty(last.data.transcription)) && run.job.progress == 100)
            && (last.data.status == Error ==>
                  run.job.progress == ProgressOrZero(last.data.progress) && run.resolution == Some(WithError(TaskFailed)))
    decreases |resps|
  {
    var run := Poll(j, resps);
    var s := Step(j, resps[0]);
    if s.tick.Resolve? {
      assert resps[..run.consumed - 1] == [];
    } else {
      var rest := Poll(s.job, resps[1..]);
      assert resps[1..][rest.consumed - 1] == resps[rest.consumed];
      PollSettlesOnStatusReply(s.job, resps[1..]);
      var before := resps[..run.consumed - 1];
      assert before != [] && before[0] == resps[0] && before[1..] == resps[1..][..rest.consumed - 1];
    }
  }

  /** The request of every status poll for a task: a GET with no body, hence without
      a content type. */
  function StatusRequest(userId: Option<string>, taskId: string): (r: Request)
    ensures r.url == BaseUrl + StatusEndpoint + taskId && r.verb == GET
    ensures "Content-Type" !in r.headers && r.body == NoBody
  {
    BuildRequest(userId, StatusEndpoint + taskId, GET, None)
  }

  /** The loop's bookkeeping: `total` is what polling from the start yields, given that
      `i` responses have been consumed with `reports` so far, the job now being `j` and
      `rest` the responses still to come. */
  ghost predicate Remains(total: PollRun, j: TranscriptionJob, rest: seq<ApiResponse<StatusPayload>>,
                          reports: seq<int>, i: nat)
  {
    var r := Poll(j, rest);
    total == PollRun(r.job, r.resolution, reports + r.reports, i + r.consumed)
  }

  /** One tick of the loop on the job object, with the bookkeeping carried forward. */
  method PollTick(job: Job, resp: ApiResponse<StatusPayload>, ghost total: PollRun,
                  ghost rest: seq<ApiResponse<StatusPayload>>, ghost reports: seq<int>, ghost i: nat)
    returns (tick: Tick, reported: Option<int>, ghost cleared: bool)
    requires rest != [] && rest[0] == resp && Remains(total, job.Snapshot(), rest, reports, i)
    modifies job
    ensures cleared <==> tick.Resolve?
    ensures tick.Resolve? ==> total == PollRun(job.Snapshot(), Some(tick.response), reports + Reported(reported), i + 1)
    ensures !tick.Resolve? ==> Remains(total, job.Snapshot(), rest[1..], reports + Reported(reported), i + 1)
  {
    ghost var s := Step(job.Snapshot(), resp);
    tick, reported, cleared := job.PollStep(resp);
    if !tick.Resolve? {
      var r := Poll(s.job, rest[1..]);
      assert reports + (Reported(s.reported) + r.reports) == (reports + Reported(s.reported)) + r.reports;
    }
  }

  /** The responses the client sees for the given fetch outcomes. */
  function PollResponses(polls: seq<FetchOutcome<StatusPayload>>): (r: seq<ApiResponse<StatusPayload>>)
    ensures |r| == |polls|
    ensures forall k :: 0 <= k < |polls| ==> r[k] == Settle(polls[k])
  {
    seq(|polls|, k requires 0 <= k < |polls| => Settle(polls[k]))
  }

  /** A transcription job as the client holds it: an object whose status, progress and
      transcript the poll loop overwrites in place. */
  class Job {
    const id: string
    const name: string
    const category: string
    const date: Timestamp
    const audioBlob: Blob
    const aiProvider: Provider
    var status: Status
    var progress: int
    var transcription: Option<string>

    function Snapshot(): TranscriptionJob
      reads this
    {
      TranscriptionJob(id, name, status, category, date, progress, audioBlob, transcription, aiProvider)
    }

    constructor (r: TranscriptionJob)
      ensures Snapshot() == r
    {
      id, name, category, date := r.id, r.name, r.category, r.date;
      audioBlob, aiProvider := r.audioBlob, r.aiProvider;
      status, progress, transcription := r.status, r.progress, r.transcription;
    }

    /** One poll tick on this job; `cleared` tells whether the tick cleared the interval. */
    method PollStep(resp: ApiResponse<StatusPayload>) returns (tick: Tick, reported: Option<int>, ghost cleared: bool)
      modifies this
      ensures StepResult(Snapshot(), tick, reported) == Step(old(Snapshot()), resp)
      ensures cleared <==> Terminal(resp)
    {
      cleared := false;
      if resp.WithError? {
        cleared := true;
        return Resolve(WithError(resp.error)), None, cleared;
      }
      var StatusPayload(st, pr, tr) := resp.data;
      status := st;
      progress := ProgressOrZero(pr);
      reported := Some(progress);
      if st == Complete {
        cleared := true;
        transcription := Some(TextOrEmpty(tr));
        progress := 100;
        tick := Resolve(WithData(Snapshot()));
      } else if st == Error {
        cleared := true;
        tick := Resolve(WithError(TaskFailed));
      } else {
        tick := KeepPolling;
      }
    }
  }

  /** The API client; its only state is the caller identity sent with every request. */
  class ApiClient {
    var userId: Option<string>

    constructor ()
      ensures userId == None
    {
      userId := None;
    }

    method SetUserId(id: string)
      modifies this
      ensures userId == Some(id)
    {
      userId := Some(id);
    }

    /** The poll loop for task `taskId` (`pollStatus` run by the interval): `polls` are
        how the successive status calls end. `result` is None when they run out before a
        terminal response (the promise is still pending); `reports` are the progress
        observer's calls in order; `requests` the status requests issued; `timerActive`
        whether the interval is still live. */
    method PollLoop(job: Job, taskId: string, polls: seq<FetchOutcome<StatusPayload>>)
      returns (result: Option<ApiResponse<TranscriptionJob>>, reports: seq<int>,
               requests: seq<Request>, ghost timerActive: bool)
      modifies job
      ensures var run := Poll(old(job.Snapshot()), PollResponses(polls));
              && job.Snapshot() == run.job && result == run.resolution && reports == run.reports
              && |requests| == run.consumed
      ensures forall k :: 0 <= k < |requests| ==> requests[k] == StatusRequest(userId, taskId)
      ensures timerActive <==> result.None?
    {
      ghost var j0 := job.Snapshot();
      ghost var resps := PollResponses(polls);
      ghost var total := Poll(j0, resps);
      timerActive := true;
      result, reports, requests := None, [], [];
      var i := 0;
      while i < |polls| && result.None?
        invariant 0 <= i <= |polls| && |requests| == i
        invariant timerActive <==> result.None?
        invariant forall k :: 0 <= k < |requests| ==> requests[k] == StatusRequest(userId, taskId)
        invariant result.None? ==> Remains(total, job.Snapshot(), resps[i..], reports, i)
        invariant result.Some? ==> total == PollRun(job.Snapshot(), result, reports, i)
      {
        var x := MakeRequest(userId, StatusEndpoint + taskId, GET, None, polls[i]);
        requests := requests + [x.request];
        assert resps[i..][0] == x.response && resps[i..][1..] == resps[i + 1..];
        var tick, reported, cleared := PollTick(job, x.response, total, resps[i..], reports, i);
        reports := reports + Reported(reported);
        if cleared {
          timerActive := false;
        }
        if tick.Resolve? {
          result := Some(tick.response);
        }
        i := i + 1;
      }
      assert result.None? ==> resps[i..] == [];
    }

    /** `transcribeAudio`: submits the job, and polls only when the submission yielded
        a task handle. `submit` is how the submission call ends; the other parameters
        and results are those of PollLoop, with the submission request first. */
    method TranscribeAudio(job: Job, submit: FetchOutcome<SubmitPayload>,
                           polls: seq<FetchOutcome<StatusPayload>>)
      returns (result: Option<ApiResponse<TranscriptionJob>>, reports: seq<int>,
               requests: seq<Request>, ghost timerActive: bool)
      modifies job
      ensures var start := MakeRequest(userId, SubmitEndpoint, POST, Some(SubmitForm(old(job.Snapshot()))), submit);
              var handle := SubmitHandle(start.response);
              && |requests| >= 1 && requests[0] == start.request
              && (handle.WithError? ==>
                    && result == Some(WithError(handle.error)) && reports == [] && requests == [start.request]
                    && job.Snapshot() == old(job.Snapshot()))
              && (handle.WithData? ==>
                    var run := Poll(old(job.Snapshot()), PollResponses(polls));
                    && job.Snapshot() == run.job && result == run.resolution && reports == run.reports
                    && |requests| == 1 + run.consumed
                    && (forall k :: 1 <= k < |requests| ==> requests[k] == StatusRequest(userId, handle.data)))
      ensures timerActive <==> result.None?
    {
      var start := MakeRequest(userId, SubmitEndpoint, POST, Some(SubmitForm(job.Snapshot())), submit);
      var handle := SubmitHandle(start.response);
      if handle.WithError? {
        return Some(WithError(handle.error)), [], [start.request], false;
      }
      var polled;
      result, reports, polled, timerActive := PollLoop(job, handle.data, polls);
      requests := [start.request] + polled;
    }
  }
}
