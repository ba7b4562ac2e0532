/** The record shared by the recorder, the job list and the API client:
    a transcription job with its closed status and provider enumerations. */
module Types {

  datatype Option<+T> = None | Some(value: T) {
    /** The wrapped value, or `default` when absent (the `??` operator). */
    function GetOr(default: T): T {
      match this
      case Some(v) => v
      case None => default
    }
  }

  /** The four states of a job. */
  datatype Status = Pending | Processing | Complete | Error

  /** The two language-model back ends a job may be routed to. */
  datatype Provider = OpenAI | Anthropic

  type Byte = bv8

  /** A binary payload with its MIME type. */
  datatype Blob = Blob(bytes: seq<Byte>, mimeType: string)

  /** A point in time, as milliseconds since the epoch. */
  type Timestamp = int

  /** A transcription job. Every field is mandatory except `transcription`;
      `progress` is an unconstrained number: no bound is imposed by the record. */
  datatype TranscriptionJob = TranscriptionJob(
    id: string,
    name: string,
    status: Status,
    category: string,
    date: Timestamp,
    progress: int,
    audioBlob: Blob,
    transcription: Option<string>,
    aiProvider: Provider)

  /** The wire name of a status. */
  function StatusName(s: Status): (r: string)
    ensures ParseStatus(r) == Some(s)
  {
    match s
    case Pending => "pending"
    case Processing => "processing"
    case Complete => "complete"
    case Error => "error"
  }

  /** The status a wire name denotes; any other string denotes none. */
  function ParseStatus(t: string): (r: Option<Status>)
    ensures r == Some(Pending) <==> t == "pending"
    ensures r == Some(Processing) <==> t == "processing"
    ensures r == Some(Complete) <==> t == "complete"
    ensures r == Some(Error) <==> t == "error"
  {
    if t == "pending" then Some(Pending)
    else if t == "processing" then Some(Processing)
    else if t == "complete" then Some(Complete)
    else if t == "error" then Some(Error)
    else None
  }

  /** The wire name of a provider. */
  function ProviderName(p: Provider): (r: string)
    ensures ParseProvider(r) == Some(p)
  {
    match p
    case OpenAI => "openai"
    case Anthropic => "anthropic"
  }

  /** The provider a wire name denotes; any other string denotes none. */
  function ParseProvider(t: string): (r: Option<Provider>)
    ensures r == Some(OpenAI) <==> t == "openai"
    ensures r == Some(Anthropic) <==> t == "anthropic"
  {
    if t == "openai" then Some(OpenAI)
    else if t == "anthropic" then Some(Anthropic)
    else None
  }

  /** JavaScript's `s || fallback` on a string: the empty string is falsy. */
  function OrElse(s: string, fallback: string): (r: string)
    ensures r == s || r == fallback
    ensures r == fallback <==> s == "" || s == fallback
  {
    if s != "" then s else fallback
  }

  /** JavaScript's `s || ""` on an optional string. */
  function TextOrEmpty(s: Option<string>): (r: string)
    ensures s.Some? ==> r == s.value
    ensures s.None? ==> r == ""
  {
    OrElse(s.GetOr(""), "")
  }
}
