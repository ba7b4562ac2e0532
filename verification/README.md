# Audio transcription jobs, modelled in Dafny

The system records short audio clips in the browser and turns each clip into a
transcription job. The job list shows every job with its status. Starting a job submits
its audio to a back end, and the client then polls until the job completes or fails. The
back end keeps an in-memory table of tasks, keyed by job id, and categorises transcripts
with a language model.

The model has five modules, one per source file:

- `Types` (`types.dfy`) holds the job record, its closed status and provider
  enumerations with their wire names, and JavaScript's `||` on strings.
- `ApiService` (`api_service.dfy`) holds the request primitive: its headers, body
  encoding and never-throwing result shape. It also holds the submit check, the poll
  tick as a step function, and the poll loop over a finite run of responses. The `Job`
  class is the job object the tick overwrites in place. The `ApiClient` class runs the
  submission and the loop.
- `App` (`app.dfy`) holds the job list as a sequence that is appended to and rewritten
  by id. It also holds the start flow driven by the client's outcome, and the viewer.
- `Recorder` (`recorder.dfy`) holds the recorder's flags, its seconds counter, its chunk
  buffer and the pending job built when capture stops.
- `Backend` (`backend.dfy`) holds the task table written by the submission route and
  read by the status route. It also holds the categoriser's provider check and the two
  mocked random sources.

Each outside effect becomes a parameter:

- The outcome of every network call is a `FetchOutcome`, which is either a parsed
  payload or an exception message.
- Microphone access is a `MicOutcome`.
- `uuid` ids and `new Date()` timestamps are passed in.
- `random.choice` is a `pick` argument.
- The language model's answer is a `PredictOutcome`.

## Model

| member | source | states |
|---|---|---|
| Types.StatusName | frontend/src/lib/types.ts:4 | every status has a wire name, and that name denotes it |
| Types.ParseStatus | frontend/src/lib/types.ts:4 | exactly "pending", "processing", "complete" and "error" denote statuses, each its own |
| Types.ProviderName | frontend/src/lib/types.ts:10 | every provider has a wire name, and that name denotes it |
| Types.ParseProvider | frontend/src/lib/types.ts:10 | exactly "openai" and "anthropic" denote providers |
| Types.OrElse | frontend/src/services/APIService.ts:71 | the or-fallback on a string yields the string when non-empty, else the fallback |
| Types.TextOrEmpty | frontend/src/services/APIService.ts:102 | a missing transcript reads as the empty string; a present one as itself |
| ApiService.RequestHeaders | frontend/src/services/APIService.ts:26-34 | X-User-ID is the user id or "", X-API-Version is "1.0.0", and Content-Type is "application/json" exactly when a non-form body is present; no other header is set |
| ApiService.WireBody | frontend/src/services/APIService.ts:39 | form data goes out unchanged, a plain object as JSON, and no body as none |
| ApiService.FailureMessage | frontend/src/services/APIService.ts:51 | the failure text is "Request failed: " followed by the exception text, so it is never empty |
| ApiService.BuildRequest | frontend/src/services/APIService.ts:36-47 | the request goes to base URL + endpoint with the given method, the headers and the body above |
| ApiService.Settle | frontend/src/services/APIService.ts:44-52 | the call never throws: data exactly when the payload parsed, otherwise a non-empty "Request failed: " error |
| ApiService.MakeRequest | frontend/src/services/APIService.ts:20-53 | one call sends to base URL + endpoint with its method, and answers with data exactly when the payload parsed |
| ApiService.SubmitForm | frontend/src/services/APIService.ts:63-66 | the submission form has three fields in order: id, the audio blob, and the provider's wire name |
| ApiService.SubmitHandle | frontend/src/services/APIService.ts:68-74 | polling starts exactly when the reply carries a non-empty task id; otherwise the error is the transport error when non-empty, else "Failed to initiate transcription." |
| ApiService.Step | frontend/src/services/APIService.ts:87-108 | a transport error settles with that error and leaves the job alone; a status reply sets the status and progress (or 0) and reports that progress even when terminal; "complete" stores the text (or ""), forces 100 and settles with the job; "error" settles with "Transcription task failed."; only terminal replies settle; only status, progress and transcript change |
| ApiService.Poll | frontend/src/services/APIService.ts:80-113 | the loop settles exactly when some response is terminal, consumes responses up to and including the first terminal one and no further, keeps id, audio and provider, and succeeds only with a completed job at 100 that has a transcript (which transcript is stated by PollSettlesOnStatusReply) |
| ApiService.PollIgnoresLaterResponses | frontend/src/services/APIService.ts:100-108 | once the loop has settled, responses arriving later change nothing |
| ApiService.PollReports | frontend/src/services/APIService.ts:93-98 | the progress observer hears once from every status reply consumed, terminal ones included, in order, with that reply's progress or 0; a transport error is never reported |
| ApiService.PollTransportErrorKeepsJob | frontend/src/services/APIService.ts:87-91 | when the loop ends on a transport error, the job is exactly as the status replies before that error left it, and the outcome is an error |
| ApiService.PollSettlesOnStatusReply | frontend/src/services/APIService.ts:93-108 | when the loop ends on a status reply, the job and outcome are that reply's tick applied to the job the earlier replies left: on "complete" the job carries the reply's transcript (or "") at 100, on "error" it keeps the reply's progress (or 0) and the outcome is "Transcription task failed." |
| ApiService.StatusRequest | frontend/src/services/APIService.ts:81-85 | every poll is a GET to "/transcribe/status/" + task id, with no body and no content type |
| ApiService.PollResponses | frontend/src/services/APIService.ts:81-85 | each poll's fetch outcome becomes the response the tick sees, one for one |
| ApiService.PollTick | frontend/src/services/APIService.ts:80-109 | one tick on the job object keeps the loop on course to the run Poll describes, and clears the interval exactly when it settles |
| ApiService.Job.constructor | frontend/src/services/APIService.ts:55-59 | the job object holds exactly the record's fields |
| ApiService.Job.PollStep | frontend/src/services/APIService.ts:87-108 | the tick updates the job object in place exactly as Step describes, and clears the interval exactly on a terminal response: a transport error, "complete" or "error" |
| ApiService.ApiClient.constructor | frontend/src/services/APIService.ts:13 | no user id is set at first |
| ApiService.ApiClient.SetUserId | frontend/src/services/APIService.ts:15-17 | the user id sent from then on is the one given |
| ApiService.ApiClient.PollLoop | frontend/src/services/APIService.ts:77-113 | the job object, the outcome and the observer's calls are those of Poll; one status request goes out per response consumed; each terminal branch clears the interval, so it stays live exactly while the promise is unsettled |
| ApiService.ApiClient.TranscribeAudio | frontend/src/services/APIService.ts:55-118 | the submission request goes out first; a failed submission settles at once with its error, issues no poll and leaves the job alone; otherwise the outcome is that of the poll loop for the returned task id |
| App.UpdateWhere | frontend/src/App.tsx:33-37 | only entries whose id matches are patched, in place; the length and every other entry are unchanged |
| App.ReportAll | frontend/src/App.tsx:43-45 | after the observer's calls, the matching entries are processing at the last reported progress; nothing else changes |
| App.StartEffect | frontend/src/App.tsx:39-68 | the started job is processing at the last report while unsettled; on data it is complete at 100 with the result's category and transcript; on an error result or an exception it is in error with its progress kept, and the matching notification is shown; jobs with another id never change |
| App.ViewedText | frontend/src/App.tsx:70-75 | a transcript is opened exactly when it is present and non-empty |
| App.AppState.constructor | frontend/src/App.tsx:13-17 | the list starts empty, no transcript is shown, the viewer is closed and OpenAI is selected |
| App.AppState.AddTranscriptionJob | frontend/src/App.tsx:29-31 | the job goes at the end, the list grows by one, and earlier entries are unchanged |
| App.AppState.UpdateTranscriptionJobStatus | frontend/src/App.tsx:33-37 | the matching entries get the new status, and the new progress if given, else their own; other state is untouched |
| App.AppState.HandleStartTranscription | frontend/src/App.tsx:39-68 | the sequence of list writes ends in the state StartEffect describes, with its notification |
| App.AppState.StartWithClient | frontend/src/App.tsx:39-68 | run against the API client, the list and notification end as StartEffect describes for the client's outcome and progress calls; a failed submission settles at once with its error and no reports, otherwise the outcome and reports are those of Poll; the exception notification is never shown, and no other job changes |
| App.AppState.HandleViewTranscription | frontend/src/App.tsx:70-75 | the viewer opens on the transcript exactly when it is non-empty; otherwise nothing changes |
| App.AppState.HandleAIChange | frontend/src/App.tsx:77-79 | only the selected provider changes |
| Recorder.Start | frontend/src/components/AudioRecorder.tsx:33-77 | with the microphone: recording, counter at 0, recorder capturing, timer live; without it: nothing changes |
| Recorder.StopSeeing | frontend/src/components/AudioRecorder.tsx:79-88 | the stop acts only when a recorder exists and the flag it sees is set, and then clears the flag, the capture and the timer |
| Recorder.Stop | frontend/src/components/AudioRecorder.tsx:79-88 | the stop button has no effect unless recording; when it acts, the flag, the capture and the timer are cleared; the counter is kept |
| Recorder.TickAsWritten | frontend/src/components/AudioRecorder.tsx:60-67 | the tick as written adds one below 10, holds 10 from there, and calls the stop captured at start |
| Recorder.Tick | frontend/src/components/AudioRecorder.tsx:60-67 | the intended tick (the correction in Findings): the counter never passes 10; below 10 it adds one; at 10 the recording stops |
| Recorder.TickStopsAtMax | frontend/src/components/AudioRecorder.tsx:60-67 | after n ticks from a fresh start, the counter reads min(n, 10); the recording runs through ten ticks and has stopped from the eleventh |
| Recorder.StaleTickNeverStops | frontend/src/components/AudioRecorder.tsx:60-67 | with the tick as written, a fresh recording never stops, however many ticks fire |
| Recorder.ElevenTicksAfterStart | frontend/src/components/AudioRecorder.tsx:58-67 | after a start and eleven ticks, the tick as written is still recording and the intended tick is not |
| Recorder.Kept | frontend/src/components/AudioRecorder.tsx:37-41 | the buffer is never longer than the chunks delivered |
| Recorder.KeptCounts | frontend/src/components/AudioRecorder.tsx:37-41 | every non-empty chunk is buffered exactly as often as it was delivered, and no empty chunk is |
| Recorder.KeptAppend | frontend/src/components/AudioRecorder.tsx:37-41 | chunks are buffered in arrival order: what is kept of later deliveries follows what is kept of earlier ones |
| Recorder.KeptKeepsAudio | frontend/src/components/AudioRecorder.tsx:37-43 | dropping empty chunks loses no audio: the joined buffer equals all the audio delivered |
| Recorder.RecordingName | frontend/src/components/AudioRecorder.tsx:47 | the name is "Recording " followed by the id's first eight characters, or the whole id when shorter |
| Recorder.RecordingJob | frontend/src/components/AudioRecorder.tsx:42-54 | the new job is pending at 0 in category "Audio", with the given provider, no transcript, and the buffered chunks as one "audio/webm" blob |
| Recorder.AudioRecorder.constructor | frontend/src/components/AudioRecorder.tsx:19-23 | the recorder starts idle at 0 with an empty buffer |
| Recorder.AudioRecorder.StartRecording | frontend/src/components/AudioRecorder.tsx:33-77 | the flags move as Start says; the error notification is shown exactly when the microphone is denied; the provider used at stop is the one selected at start; the interval started keeps the recording flag of the render before the start; the buffer is untouched |
| Recorder.AudioRecorder.TimerTick | frontend/src/components/AudioRecorder.tsx:60-67 | one firing of the interval moves the flags and counter as TickAsWritten says with the flag captured at start, so at the maximum the counter holds at 10 and the recording stops only if that captured flag was set; the buffer is untouched |
| Recorder.AudioRecorder.StopRecording | frontend/src/components/AudioRecorder.tsx:79-88 | the flags move as Stop says, and the buffer is untouched |
| Recorder.AudioRecorder.OnDataAvailable | frontend/src/components/AudioRecorder.tsx:37-41 | a non-empty chunk is appended after the others and an empty one changes nothing, so the buffer stays what Kept makes of all chunks delivered |
| Recorder.AudioRecorder.OnStop | frontend/src/components/AudioRecorder.tsx:42-56 | exactly one job is produced, built from what Kept makes of the chunks delivered, so its audio is all the audio delivered; the buffer is empty afterwards |
| Backend.ProcessTranscription | backend/app.py:24-31 | the transcript is one of the three canned texts |
| Backend.ModelFor | backend/app.py:40-43 | "anthropic" is served by claude-2 and "openai" by gpt-4, both at temperature 0.5 |
| Backend.CategorizeTranscription | backend/app.py:33-69 | a provider other than "openai" or "anthropic" is refused with "Unsupported AI provider: " + provider, and only such a provider is refused that way; otherwise the model ModelFor picks for the provider is asked about the transcript, its answer is the category, and an exception becomes "Failed to categorize transcription: " + its message |
| Backend.GetUserModelFromDb | backend/app.py:72-78 | the answer is "openai" or "anthropic", so the categoriser never refuses it as unsupported |
| Backend.TaskTable.constructor | backend/app.py:17 | the table starts empty |
| Backend.TaskTable.TranscribeAudio | backend/app.py:81-102 | a missing "id", "audio" or "provider" field raises, in that order, and leaves the table unchanged; otherwise the job's task is created or overwritten as pending at 0 with no transcript or category, every other task is kept, and the reply is task id = job id, "pending", 202 when the background task could be scheduled, otherwise a scheduling failure (the task stays stored); the table stays all-pending |
| Backend.TaskTable.Status | backend/app.py:104-116 | an unknown id gets "Task not found" with 404, and only an unknown id does; a known id gets exactly its stored fields with 200, which, while the table is all-pending, are the wire name of the pending status, 0, and no transcript or category |

## Left out

- The poll cadence is not modelled: the two-second interval, the immediate first tick and overlapping asynchronous ticks. The loop runs over a given finite sequence of responses instead. When that sequence ends before a terminal response, the promise is still pending.
- `fetch` and `response.json()` are not modelled. Each call's outcome is given as a parsed payload or an exception message.
- The JSON text of a plain-object body is not modelled; the model keeps the object itself.
- The `console.log` trace is not modelled.
- The `version` field of the response shape is never set by the client, so it is not modelled.
- `localStorage`, the `uuid` generator and the `useEffect` that seeds the user id are not modelled. The id is an input to `SetUserId`.
- `getUserMedia`, `MediaRecorder`, track shutdown and the unmount cleanup are not modelled. A recorder that exists, and whether it captures, are two flags.
- A failure of `MediaRecorder.start()` after the microphone was opened is not modelled.
- The `onstop` event that stopping the recorder fires is a separate call, `OnStop`.
- Recorder.AudioRecorder.TimerTick follows the code as written (the stale `stopRecording`); the intended tick of the Findings table exists as the function `Tick`, with its property proved by `TickStopsAtMax`, and is not wired into the class.
- The recorder's progress-bar percentage is a floating-point display value, so it is not modelled.
- Presentation is not modelled: the header, the modal and the jobs table, toast variants, and the table's button guards.
- Dates and JavaScript numbers are modelled as integers. Progress is an unbounded `int`, because the record imposes no bound.
- The poll payload's status is taken to be one of the four statuses. A reply without one, or with an unknown one, is not modelled.
- App.AppState.HandleStartTranscription: the `if (job.audioBlob)` guard is not a branch. A `Blob` object is always truthy, even when empty, so the guard always passes.
- ApiService.ApiClient.TranscribeAudio: the `catch` that returns "Unexpected error: ..." is not modelled. Nothing inside its `try` can throw, because the request primitive catches every exception.
- App.AppState.StartWithClient: the client polls a copy of the list entry. In the source it mutates the entry object itself, but the start has already replaced that entry in the list, so the list is unaffected either way.
- The front end and the back end disagree on the wire protocol. Each side is modelled against its own code, and no end-to-end round trip is claimed:
  - the reply field is `taskId` on the client and `task_id` on the server;
  - the poll path is `/transcribe/status/` on the client and `/status/` on the server;
  - the client sends a multipart form with `aiProvider`, and the server reads JSON with `provider`.
- Backend.TaskTable.TranscribeAudio: the model takes the request's JSON fields as its argument. The handler at backend/app.py:82 declares a `request` parameter, which Flask's routing, passing only URL variables, does not supply, so as written the route raises `TypeError` before its body runs. That is a property of the framework's dispatch, not of the handler's code, so it is not modelled; nor is a body that is not JSON.
- Backend.TaskTable.TranscribeAudio: `asyncio.create_task` (backend/app.py:101) needs a running event loop, which a synchronous view does not have, so as written the call raises after the task has been stored. The model keeps both outcomes behind the `scheduled` flag (the table is written either way; only a scheduled task is accepted) rather than asserting the runtime's behaviour.
- The background task is not modelled beyond whether it could be scheduled. It sleeps, transcribes, categorises and returns a response nobody reads. It never writes to the table. Flask routing, CORS and `dotenv` are outside the model.
- `time.sleep` is not modelled.
- The LangChain model classes and `predict` are not modelled; the model's answer or exception is an input. The categorisation prompt text is not modelled either.

## Findings

| source | as written | input that shows it | evidently intended | confidence | as-written member | corrected member |
|---|---|---|---|---|---|---|
| frontend/src/components/AudioRecorder.tsx:60-67 | the interval callback calls the `stopRecording` captured in the render where recording was started, which sees `isRecording` as false, so the stop at the maximum does nothing | start recording with the microphone granted and let eleven one-second ticks fire: the counter holds at 10, and recording and the timer go on | reaching MAX_RECORDING_TIME ends the recording and clears the timer | high (not executed) | Recorder.StaleTickNeverStops | Recorder.TickStopsAtMax |
