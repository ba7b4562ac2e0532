/** The back end: the in-memory task table written by the submission route and read by
    the status route, the provider check of the categoriser, and its two mocked sources
    of randomness. */
module Backend {
  import opened Types

  const PendingStatus: string := "pending"
  const TaskNotFound: string := "Task not found"
  const UnsupportedProvider: string := "Unsupported AI provider: "
  const CategorizeFailed: string := "Failed to categorize transcription: "

  /** The three canned transcripts the mock transcriber picks from. */
  const Transcripts: seq<string> := [
    "I've always been fascinated by cars, especially classic muscle cars from the 60s and 70s. The raw power and beautiful design of those vehicles is just incredible.",
    "Bald eagles are such majestic creatures. I love watching them soar through the sky and dive down to catch fish. Their white heads against the blue sky is a sight I'll never forget.",
    "Deep sea diving opens up a whole new world of exploration. The mysterious creatures and stunning coral reefs you encounter at those depths are unlike anything else on Earth."
  ]

  /** One entry of the task table. */
  datatype TaskRecord = TaskRecord(status: string, transcription: Option<string>,
                                   category: Option<string>, progress: int)

  /** The entry every submission stores. */
  const NewTask: TaskRecord := TaskRecord(PendingStatus, None, None, 0)

  /** The submission route's outcome: the accepted reply with its HTTP code, the
      `KeyError` raised when a request field is missing, or the exception raised when the
      background task cannot be scheduled. */
  datatype SubmitReply = Accepted(taskId: string, status: string, code: nat) | KeyError(key: string)
                       | SchedulingFailed

  /** The status route's reply. */
  datatype StatusReply =
    | TaskState(status: string, progress: int, transcription: Option<string>, category: Option<string>, code: nat)
    | NotFound(error: string, code: nat)

  /** `process_transcription`: one of the three canned transcripts; `pick` stands for
      the random choice. */
  function ProcessTranscription(jobId: string, audio: string, pick: nat): (r: string)
    requires pick < |Transcripts|
    ensures r in Transcripts
  {
    Transcripts[pick]
  }

  /** The language model a provider is served by. */
  datatype ModelSpec = ModelSpec(modelName: string, temperature: real)

  function ModelFor(p: Provider): (m: ModelSpec)
    ensures m.temperature == 0.5
    ensures p == Anthropic <==> m.modelName == "claude-2"
    ensures p == OpenAI <==> m.modelName == "gpt-4"
  {
    match p
    case Anthropic => ModelSpec("claude-2", 0.5)
    case OpenAI => ModelSpec("gpt-4", 0.5)
  }

  /** How building a model and asking it about a transcript went: its answer, or the
      exception raised. */
  datatype PredictOutcome = Predicted(text: string) | Raised(message: string)

  datatype Categorization = Categorized(jobId: string, category: string) | CategorizeError(error: string)

  /** `categorize_transcription`: an unknown provider is refused before any model is
      built; otherwise the model ModelFor picks for the provider is asked about the
      transcript, its answer is the category, and any exception becomes an error.
      `ask` is how a given model answers about a given transcript. */
  function CategorizeTranscription(jobId: string, text: string, aiProvider: string,
                                   ask: (ModelSpec, string) -> PredictOutcome): (r: Categorization)
    ensures aiProvider != "openai" && aiProvider != "anthropic" <==>
              r == CategorizeError(UnsupportedProvider + aiProvider)
    ensures ParseProvider(aiProvider).Some? ==>
              var answer := ask(ModelFor(ParseProvider(aiProvider).value), text);
              && (answer.Predicted? ==> r == Categorized(jobId, answer.text))
              && (answer.Raised? ==> r == CategorizeError(CategorizeFailed + answer.message))
  {
    var provider := ParseProvider(aiProvider);
    if provider.None? then CategorizeError(UnsupportedProvider + aiProvider)
    else
      match ask(ModelFor(provider.value), text)
      case Predicted(category) => Categorized(jobId, category)
      case Raised(message) =>
        assert (CategorizeFailed + message)[0] != (UnsupportedProvider + aiProvider)[0];
        CategorizeError(CategorizeFailed + message)
  }

  /** `get_user_model_from_db`: `pick` stands for the random choice. The answer always
      passes the categoriser's provider check. */
  function GetUserModelFromDb(userId: string, pick: bool): (r: string)
    ensures r == "openai" || r == "anthropic"
    ensures forall text, ask: (ModelSpec, string) -> PredictOutcome ::
              CategorizeTranscription(userId, text, r, ask) != CategorizeError(UnsupportedProvider + r)
  {
    if pick then "openai" else "anthropic"
  }

  /** The module-level `tasks` dictionary. */
  class TaskTable {
    var tasks: map<string, TaskRecord>

    /** Every stored task is still as it was created: pending, at 0. */
    ghost predicate AllPending()
      reads this
    {
      forall id :: id in tasks ==> tasks[id] == NewTask
    }

    constructor ()
      ensures tasks == map[] && AllPending()
    {
      tasks := map[];
    }

    /** `transcribe_audio`, given the request's JSON fields: reading a missing field
        raises before anything is stored; otherwise the task keyed by the job id is
        created, or overwritten, as pending at 0, and, if the background task could be
        scheduled (`scheduled`), accepted with 202. */
    method TranscribeAudio(request: map<string, string>, scheduled: bool) returns (r: SubmitReply)
      modifies this
      ensures "id" !in request ==> r == KeyError("id") && tasks == old(tasks)
      ensures "id" in request && "audio" !in request ==> r == KeyError("audio") && tasks == old(tasks)
      ensures "id" in request && "audio" in request && "provider" !in request ==>
                r == KeyError("provider") && tasks == old(tasks)
      ensures "id" in request && "audio" in request && "provider" in request ==>
                && tasks == old(tasks)[request["id"] := NewTask]
                && r == if scheduled then Accepted(request["id"], PendingStatus, 202) else SchedulingFailed
      ensures old(AllPending()) ==> AllPending()
    {
      if "id" !in request {
        return KeyError("id");
      }
      var jobId := request["id"];
      if "audio" !in request {
        return KeyError("audio");
      }
      if "provider" !in request {
        return KeyError("provider");
      }
      tasks := tasks[jobId := NewTask];
      if !scheduled {
        return SchedulingFailed;
      }
      r := Accepted(jobId, PendingStatus, 202);
    }

    /** `status`: the stored fields of a known task, or "Task not found" with 404. */
    function Status(taskId: string): (r: StatusReply)
      reads this
      ensures r.NotFound? <==> taskId !in tasks
      ensures r.NotFound? ==> r == NotFound(TaskNotFound, 404)
      ensures r.TaskState? ==> var t := tasks[taskId];
                r == TaskState(t.status, t.progress, t.transcription, t.category, 200)
      ensures AllPending() && r.TaskState? ==>
                r.status == PendingStatus && r.progress == 0 && r.transcription.None? && r.category.None?
      ensures AllPending() && r.TaskState? ==> ParseStatus(r.status) == Some(Pending)
    {
      if taskId !in tasks then NotFound(TaskNotFound, 404)
      else
        var t := tasks[taskId];
        TaskState(t.status, t.progress, t.transcription, t.category, 200)
    }
  }
}
