/** The application's job list: an ordered list of jobs keyed by id, the updates the
    recorder and the transcription flow make to it, and the transcript viewer. */
module App {
  import opened Types
  import opened ApiService

  const UnknownError: string := "An unknown error occurred"
  const FailedTitle: string := "Transcription Failed"
  const ErrorTitle: string := "Transcription Error"
  const ErrorDescription: string := "An error occurred during transcription"

  /** A change made to every job with a given id: a new status with an optional
      progress (kept when absent), or the category and transcript of a finished job. */
  datatype Patch = StatusPatch(status: Status, progress: Option<int>)
                 | ResultPatch(category: string, transcription: Option<string>)

  function Patched(j: TranscriptionJob, p: Patch): TranscriptionJob {
    match p
    case StatusPatch(st, pr) => j.(status := st, progress := pr.GetOr(j.progress))
    case ResultPatch(c, t) => j.(category := c, transcription := t)
  }

  /** The list with every job whose id matches patched, in place, and all other jobs
      left as they are. */
  function UpdateWhere(jobs: seq<TranscriptionJob>, id: string, p: Patch): (r: seq<TranscriptionJob>)
    ensures |r| == |jobs|
    ensures forall k :: 0 <= k < |jobs| && jobs[k].id != id ==> r[k] == jobs[k]
    ensures forall k :: 0 <= k < |jobs| && jobs[k].id == id ==> r[k] == Patched(jobs[k], p)
  {
    if jobs == [] then []
    else [if jobs[0].id == id then Patched(jobs[0], p) else jobs[0]] + UpdateWhere(jobs[1..], id, p)
  }

  /** The list after the progress observer's calls, in order: each marks the matching
      jobs processing with the reported progress. */
  function ReportAll(jobs: seq<TranscriptionJob>, id: string, reports: seq<int>): (r: seq<TranscriptionJob>)
    ensures |r| == |jobs|
    ensures forall k :: 0 <= k < |jobs| && jobs[k].id != id ==> r[k] == jobs[k]
    ensures reports == [] ==> r == jobs
    ensures reports != [] ==> forall k :: 0 <= k < |jobs| && jobs[k].id == id ==>
              r[k] == jobs[k].(status := Processing, progress := reports[|reports| - 1])
    decreases |reports|
  {
    if reports == [] then jobs
    else UpdateWhere(ReportAll(jobs, id, reports[..|reports| - 1]), id,
                     StatusPatch(Processing, Some(reports[|reports| - 1])))
  }

  /** How the orchestrator's promise ended: resolved with a result, or rejected. */
  datatype Settled = Resolved(response: ApiResponse<TranscriptionJob>) | Rejected

  /** A notification shown to the user. */
  datatype Toast = Toast(title: string, description: string)

  datatype StartOutcome = StartOutcome(jobs: seq<TranscriptionJob>, toast: Option<Toast>)

  /** The last reported progress, or the 0 the start sets when none was reported. */
  function LastProgress(reports: seq<int>): int {
    if reports == [] then 0 else reports[|reports| - 1]
  }

  /** The list updates made once the promise settles. */
  function Finish(jobs: seq<TranscriptionJob>, id: string, settled: Settled): StartOutcome {
    match settled
    case Resolved(WithData(d)) =>
      StartOutcome(UpdateWhere(UpdateWhere(jobs, id, StatusPatch(Complete, Some(100))), id,
                               ResultPatch(d.category, d.transcription)), None)
    case Resolved(WithError(e)) =>
      StartOutcome(UpdateWhere(jobs, id, StatusPatch(Error, None)), Some(Toast(FailedTitle, OrElse(e, UnknownError))))
    case Rejected =>
      StartOutcome(UpdateWhere(jobs, id, StatusPatch(Error, None)), Some(Toast(ErrorTitle, ErrorDescription)))
  }

  /** Everything `handleStartTranscription` does to the list for a job: it is marked
      processing at 0, then follows the progress reports, then, if the promise has
      settled (`settled` is None while it has not), its outcome. Jobs with another id
      are never touched. */
  function StartEffect(jobs: seq<TranscriptionJob>, id: string, reports: seq<int>,
                       settled: Option<Settled>): (r: StartOutcome)
    ensures |r.jobs| == |jobs|
    ensures forall k :: 0 <= k < |jobs| && jobs[k].id != id ==> r.jobs[k] == jobs[k]
    // still waiting: processing, at the last reported progress
    ensures settled.None? ==> r.toast.None? && forall k :: 0 <= k < |jobs| && jobs[k].id == id ==>
              r.jobs[k] == jobs[k].(status := Processing, progress := LastProgress(reports))
    // success: complete at 100, with the result's category and transcript
    ensures settled.Some? && settled.value.Resolved? && settled.value.response.WithData? ==>
              var d := settled.value.response.data;
              r.toast.None? && forall k :: 0 <= k < |jobs| && jobs[k].id == id ==>
                r.jobs[k] == jobs[k].(status := Complete, progress := 100, category := d.category,
                                      transcription := d.transcription)
    // failure or rejection: error, progress as last reported, and a notification
    ensures settled.Some? && !(settled.value.Resolved? && settled.value.response.WithData?) ==>
              r.toast.Some? && forall k :: 0 <= k < |jobs| && jobs[k].id == id ==>
                r.jobs[k] == jobs[k].(status := Error, progress := LastProgress(reports))
    ensures settled.Some? && settled.value.Resolved? && settled.value.response.WithError? ==>
              r.toast == Some(Toast(FailedTitle, OrElse(settled.value.response.error, UnknownError)))
    ensures settled == Some(Rejected) ==> r.toast == Some(Toast(ErrorTitle, ErrorDescription))
  {
    var started := UpdateWhere(jobs, id, StatusPatch(Processing, Some(0)));
    var reported := ReportAll(started, id, reports);
    if settled.None? then StartOutcome(reported, None) else Finish(reported, id, settled.value)
  }

  /** The transcript the viewer opens for a job: only a present, non-empty one. */
  function ViewedText(j: TranscriptionJob): (r: Option<string>)
    ensures r.Some? <==> j.transcription.Some? && j.transcription.value != ""
    ensures r.Some? ==> r.value == j.transcription.value
  {
    if j.transcription.Some? && j.transcription.value != "" then j.transcription else None
  }

  /** The application's state. */
  class AppState {
    var jobs: seq<TranscriptionJob>
    var currentTranscription: Option<string>
    var isModalOpen: bool
    var selectedAI: Provider

    constructor ()
      ensures jobs == [] && currentTranscription == None && !isModalOpen && selectedAI == OpenAI
    {
      jobs, currentTranscription, isModalOpen, selectedAI := [], None, false, OpenAI;
    }

    /** `addTranscriptionJob`: the job goes at the end; earlier jobs are untouched. */
    method AddTranscriptionJob(job: TranscriptionJob)
      modifies this
      ensures jobs == old(jobs) + [job]
      ensures |jobs| == |old(jobs)| + 1 && jobs[..|old(jobs)|] == old(jobs) && jobs[|jobs| - 1] == job
      ensures currentTranscription == old(currentTranscription) && isModalOpen == old(isModalOpen)
      ensures selectedAI == old(selectedAI)
    {
      jobs := jobs + [job];
    }

    /** `updateTranscriptionJobStatus`: only the jobs with that id change. */
    method UpdateTranscriptionJobStatus(id: string, status: Status, progress: Option<int>)
      modifies this
      ensures jobs == UpdateWhere(old(jobs), id, StatusPatch(status, progress))
      ensures currentTranscription == old(currentTranscription) && isModalOpen == old(isModalOpen)
      ensures selectedAI == old(selectedAI)
    {
      jobs := UpdateWhere(jobs, id, StatusPatch(status, progress));
    }

    /** `handleStartTranscription` for `job`, given the progress observer's calls and
        how the orchestrator's promise settled (None: not yet). Returns the toast shown. */
    method HandleStartTranscription(job: TranscriptionJob, reports: seq<int>, settled: Option<Settled>)
      returns (toast: Option<Toast>)
      modifies this
      ensures StartOutcome(jobs, toast) == StartEffect(old(jobs), job.id, reports, settled)
      ensures currentTranscription == old(currentTranscription) && isModalOpen == old(isModalOpen)
      ensures selectedAI == old(selectedAI)
    {
      UpdateTranscriptionJobStatus(job.id, Processing, Some(0));
      ghost var started := jobs;
      for k := 0 to |reports|
        invariant jobs == ReportAll(started, job.id, reports[..k])
        invariant currentTranscription == old(currentTranscription) && isModalOpen == old(isModalOpen)
        invariant selectedAI == old(selectedAI)
      {
        assert reports[..k + 1][..k] == reports[..k];
        UpdateTranscriptionJobStatus(job.id, Processing, Some(reports[k]));
      }
      assert reports[..|reports|] == reports;
      toast := None;
      if settled.None? {
        return;
      }
      match settled.value
      case Resolved(WithData(d)) =>
        UpdateTranscriptionJobStatus(job.id, Complete, Some(100));
        jobs := UpdateWhere(jobs, job.id, ResultPatch(d.category, d.transcription));
      case Resolved(WithError(e)) =>
        UpdateTranscriptionJobStatus(job.id, Error, None);
        toast := Some(Toast(FailedTitle, OrElse(e, UnknownError)));
      case Rejected =>
        UpdateTranscriptionJobStatus(job.id, Error, None);
        toast := Some(Toast(ErrorTitle, ErrorDescription));
    }

    /** The whole start flow against the API client: the job object handed to the client
        is built from the record, the client submits and polls, and the list follows its
        outcome (`result`, None while unsettled) and progress calls (`reports`). The client
        never rejects, so no exception toast is ever shown. */
    method StartWithClient(api: ApiClient, job: TranscriptionJob, submit: FetchOutcome<SubmitPayload>,
                           polls: seq<FetchOutcome<StatusPayload>>)
      returns (toast: Option<Toast>, result: Option<ApiResponse<TranscriptionJob>>, reports: seq<int>)
      modifies this
      ensures StartOutcome(jobs, toast) ==
                StartEffect(old(jobs), job.id, reports, if result.Some? then Some(Resolved(result.value)) else None)
      ensures SubmitHandle(Settle(submit)).WithError? ==>
                result == Some(WithError(SubmitHandle(Settle(submit)).error)) && reports == []
      ensures SubmitHandle(Settle(submit)).WithData? ==>
                var run := Poll(job, PollResponses(polls));
                result == run.resolution && reports == run.reports
      ensures toast != Some(Toast(ErrorTitle, ErrorDescription))
      ensures |jobs| == |old(jobs)|
      ensures forall k :: 0 <= k < |jobs| && old(jobs)[k].id != job.id ==> jobs[k] == old(jobs)[k]
    {
      var handle := new Job(job);
      var requests; ghost var timerActive;
      result, reports, requests, timerActive := api.TranscribeAudio(handle, submit, polls);
      var settled := if result.Some? then Some(Resolved(result.value)) else None;
      toast := HandleStartTranscription(job, reports, settled);
    }

    /** `handleViewTranscription`: the viewer opens only on a non-empty transcript. */
    method HandleViewTranscription(job: TranscriptionJob)
      modifies this
      ensures ViewedText(job).Some? ==> currentTranscription == ViewedText(job) && isModalOpen
      ensures ViewedText(job).None? ==>
                currentTranscription == old(currentTranscription) && isModalOpen == old(isModalOpen)
      ensures jobs == old(jobs) && selectedAI == old(selectedAI)
    {
      var text := ViewedText(job);
      if text.Some? {
        currentTranscription := text;
        isModalOpen := true;
      }
    }

    /** `handleAIChange`. */
    method HandleAIChange(ai: Provider)
      modifies this
      ensures selectedAI == ai
      ensures jobs == old(jobs) && currentTranscription == old(currentTranscription)
      ensures isModalOpen == old(isModalOpen)
    {
      selectedAI := ai;
    }
  }
}
