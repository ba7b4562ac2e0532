/** The audio recorder: the recording flag, the seconds counter bounded by the maximum
    recording time, the chunk buffer filled while capturing, and the pending job built
    from the buffer when capture stops. */
module Recorder {
  import opened Types

  const MaxRecordingTime: int := 10
  const RecordingMime: string := "audio/webm"
  const RecordingCategory: string := "Audio"
  const NamePrefix: string := "Recording "

  /** The recorder's flags and counter. `capturing` is whether the media recorder is
      running; `timerRunning` whether the one-second interval is live. */
  datatype RecorderView = RecorderView(isRecording: bool, recordingTime: int, hasRecorder: bool,
                                       capturing: bool, timerRunning: bool)

  const Initial: RecorderView := RecorderView(false, 0, false, false, false)

  /** Whether the microphone could be opened. */
  datatype MicOutcome = Granted | Denied

  /** `startRecording`: with the microphone, a running recorder, the flag set, the counter
      reset to 0 and the timer started; without it, nothing changes. */
  function Start(v: RecorderView, mic: MicOutcome): (r: RecorderView)
    ensures mic.Denied? ==> r == v
    ensures mic.Granted? ==> r.isRecording && r.recordingTime == 0 && r.hasRecorder && r.capturing && r.timerRunning
  {
    if mic.Denied? then v else RecorderView(true, 0, true, true, true)
  }

  /** `stopRecording` as seen by a closure that reads `seenIsRecording` for the flag: it
      acts only when a recorder exists and the flag it sees is set, and then stops the
      recorder, clears the flag and clears the timer. */
  function StopSeeing(v: RecorderView, seenIsRecording: bool): (r: RecorderView)
    ensures !(v.hasRecorder && seenIsRecording) ==> r == v
    ensures v.hasRecorder && seenIsRecording ==>
              r == v.(isRecording := false, capturing := false, timerRunning := false)
  {
    if v.hasRecorder && seenIsRecording then v.(isRecording := false, capturing := false, timerRunning := false)
    else v
  }

  /** `stopRecording` called with the current state (the stop button). */
  function Stop(v: RecorderView): (r: RecorderView)
    ensures !(v.hasRecorder && v.isRecording) ==> r == v
    ensures v.hasRecorder && v.isRecording ==> !r.isRecording && !r.capturing && !r.timerRunning
    ensures r.recordingTime == v.recordingTime && r.hasRecorder == v.hasRecorder
  {
    StopSeeing(v, v.isRecording)
  }

  /** One timer tick as the source writes it: at or above the maximum it calls the
      `stopRecording` captured when recording started, which sees the flag as it was
      then (`capturedIsRecording`), and holds the counter at the maximum; below it,
      the counter goes up by one. */
  function TickAsWritten(v: RecorderView, capturedIsRecording: bool): (r: RecorderView)
    ensures v.recordingTime >= MaxRecordingTime ==>
              r == StopSeeing(v, capturedIsRecording).(recordingTime := MaxRecordingTime)
    ensures v.recordingTime < MaxRecordingTime ==> r == v.(recordingTime := v.recordingTime + 1)
  {
    if v.recordingTime >= MaxRecordingTime then StopSeeing(v, capturedIsRecording).(recordingTime := MaxRecordingTime)
    else v.(recordingTime := v.recordingTime + 1)
  }

  /** One timer tick as intended: the same, but the stop sees the current flag. The
      counter never passes the maximum, and reaching the tick after the maximum ends
      the recording. */
  function Tick(v: RecorderView): (r: RecorderView)
    ensures v.recordingTime <= MaxRecordingTime ==> r.recordingTime <= MaxRecordingTime
    ensures v.recordingTime < MaxRecordingTime ==> r == v.(recordingTime := v.recordingTime + 1)
    ensures v.recordingTime >= MaxRecordingTime ==> r.recordingTime == MaxRecordingTime
    ensures v.recordingTime >= MaxRecordingTime && v.hasRecorder && v.isRecording ==>
              !r.isRecording && !r.capturing && !r.timerRunning
  {
    if v.recordingTime >= MaxRecordingTime then Stop(v).(recordingTime := MaxRecordingTime)
    else v.(recordingTime := v.recordingTime + 1)
  }

  /** `n` ticks of the intended timer. */
  function Ticks(v: RecorderView, n: nat): RecorderView
    decreases n
  {
    if n == 0 then v else Tick(Ticks(v, n - 1))
  }

  /** `n` ticks of the timer as written, its closure having captured `capturedIsRecording`. */
  function TicksAsWritten(v: RecorderView, capturedIsRecording: bool, n: nat): RecorderView
    decreases n
  {
    if n == 0 then v else TickAsWritten(TicksAsWritten(v, capturedIsRecording, n - 1), capturedIsRecording)
  }

  function Min(a: int, b: int): int {
    if a <= b then a else b
  }

  /** A recorder just started: recording, capturing, timer live, counter at 0. */
  predicate JustStarted(v: RecorderView) {
    v.isRecording && v.hasRecorder && v.capturing && v.timerRunning && v.recordingTime == 0
  }

  /** With the intended tick: from a fresh start the counter reads min(n, 10) after n
      ticks; the recording goes on through the tenth tick and has stopped, with its
      timer cleared, from the eleventh. */
  lemma {:induction false} TickStopsAtMax(s: RecorderView, n: nat)
    requires JustStarted(s)
    ensures var v := Ticks(s, n);
            && v.recordingTime == Min(n, MaxRecordingTime) && v.hasRecorder
            && (n <= MaxRecordingTime ==> v.isRecording && v.capturing && v.timerRunning)
            && (n > MaxRecordingTime ==> !v.isRecording && !v.capturing && !v.timerRunning)
  {
    if n > 0 {
      TickStopsAtMax(s, n - 1);
    }
  }

  /** With the tick as written: the captured `stopRecording` sees the flag as it was
      before the start, unset, so from a fresh start the recording and its timer never
      stop, however many ticks fire; the counter just stays at 10. */
  lemma {:induction false} StaleTickNeverStops(s: RecorderView, n: nat)
    requires JustStarted(s)
    ensures var v := TicksAsWritten(s, false, n);
            && v.recordingTime == Min(n, MaxRecordingTime)
            && v.isRecording && v.capturing && v.timerRunning
  {
    if n > 0 {
      StaleTickNeverStops(s, n - 1);
    }
  }

  /** The discrepancy on a concrete run: start with the microphone granted (the flag was
      unset before) and let eleven ticks fire. */
  lemma ElevenTicksAfterStart()
    ensures !Initial.isRecording && JustStarted(Start(Initial, Granted))
    ensures TicksAsWritten(Start(Initial, Granted), Initial.isRecording, 11).isRecording
    ensures !Ticks(Start(Initial, Granted), 11).isRecording
  {
    StaleTickNeverStops(Start(Initial, Granted), 11);
    TickStopsAtMax(Start(Initial, Granted), 11);
  }

  /** The buffer `ondataavailable` builds from the chunks delivered, in order: empty
      chunks are dropped, every other chunk is kept as often as it was delivered. */
  function Kept(events: seq<Blob>): (r: seq<Blob>)
    ensures |r| <= |events|
    decreases |events|
  {
    if events == [] then []
    else
      var last := events[|events| - 1];
      Kept(events[..|events| - 1]) + (if |last.bytes| > 0 then [last] else [])
  }

  /** Every non-empty chunk is buffered as often as it was delivered, and no empty one. */
  lemma {:induction false} KeptCounts(events: seq<Blob>)
    ensures forall c :: multiset(Kept(events))[c] == if |c.bytes| > 0 then multiset(events)[c] else 0
    decreases |events|
  {
    if events != [] {
      var last := events[|events| - 1];
      var front := events[..|events| - 1];
      KeptCounts(front);
      assert events == front + [last];
      assert multiset(events) == multiset(front) + multiset([last]);
      assert multiset(Kept(events)) == multiset(Kept(front)) + multiset(if |last.bytes| > 0 then [last] else []);
    }
  }

  /** Chunks delivered later are buffered after those delivered earlier. */
  lemma {:induction false} KeptAppend(a: seq<Blob>, b: seq<Blob>)
    ensures Kept(a + b) == Kept(a) + Kept(b)
    decreases |b|
  {
    if b == [] {
      assert a + b == a;
    } else {
      var last := b[|b| - 1];
      var front := b[..|b| - 1];
      var tail := if |last.bytes| > 0 then [last] else [];
      assert (a + b)[..|a + b| - 1] == a + front && (a + b)[|a + b| - 1] == last;
      assert Kept(a + b) == Kept(a + front) + tail;
      assert Kept(b) == Kept(front) + tail;
      KeptAppend(a, front);
      assert Kept(a) + (Kept(front) + tail) == (Kept(a) + Kept(front)) + tail;
    }
  }

  /** The bytes of a blob built from chunks. */
  function Joined(chunks: seq<Blob>): seq<Byte>
    decreases |chunks|
  {
    if chunks == [] then [] else Joined(chunks[..|chunks| - 1]) + chunks[|chunks| - 1].bytes
  }

  /** Dropping empty chunks loses no audio. */
  lemma {:induction false} KeptKeepsAudio(events: seq<Blob>)
    ensures Joined(Kept(events)) == Joined(events)
    decreases |events|
  {
    if events != [] {
      var last := events[|events| - 1];
      var front := events[..|events| - 1];
      KeptKeepsAudio(front);
      var kept := Kept(front) + (if |last.bytes| > 0 then [last] else []);
      if |last.bytes| > 0 {
        assert kept[..|kept| - 1] == Kept(front);
      } else {
        assert kept == Kept(front);
        assert Joined(events) == Joined(front) + last.bytes;
        assert last.bytes == [];
      }
    }
  }

  /** The name of a recording: "Recording " and the first eight characters of its id. */
  function RecordingName(id: string): (r: string)
    ensures |id| >= 8 ==> |r| == |NamePrefix| + 8 && r[|NamePrefix|..] == id[..8]
    ensures |id| < 8 ==> r == NamePrefix + id
    ensures r[..|NamePrefix|] == NamePrefix
  {
    NamePrefix + id[..Min(|id|, 8)]
  }

  /** The job `onstop` adds: pending at 0, category "Audio", the provider selected when
      recording started, and the buffered chunks as one "audio/webm" blob. */
  function RecordingJob(id: string, date: Timestamp, chunks: seq<Blob>, provider: Provider): (j: TranscriptionJob)
    ensures j.id == id && j.name == RecordingName(id) && j.date == date
    ensures j.status == Pending && j.progress == 0 && j.category == RecordingCategory
    ensures j.aiProvider == provider && j.transcription.None?
    ensures j.audioBlob.mimeType == RecordingMime && j.audioBlob.bytes == Joined(chunks)
  {
    TranscriptionJob(id, RecordingName(id), Pending, RecordingCategory, date, 0,
                     Blob(Joined(chunks), RecordingMime), None, provider)
  }

  /** The recorder component's state. */
  class AudioRecorder {
    var isRecording: bool
    var recordingTime: int
    var hasRecorder: bool
    var capturing: bool
    var timerRunning: bool
    var chunks: seq<Blob>
    /** Every chunk delivered since the buffer was last emptied. */
    ghost var delivered: seq<Blob>
    /** The provider the `onstop` handler was created with. */
    var provider: Provider
    /** The recording flag as the interval's callback sees it: the value it had in the
        render where the running recording was started. */
    var capturedIsRecording: bool

    function View(): RecorderView
      reads this
    {
      RecorderView(isRecording, recordingTime, hasRecorder, capturing, timerRunning)
    }

    /** The buffer holds exactly what `ondataavailable` kept of the chunks delivered. */
    ghost predicate Valid()
      reads this
    {
      chunks == Kept(delivered)
    }

    constructor ()
      ensures View() == Initial && chunks == [] && delivered == [] && Valid()
    {
      isRecording, recordingTime, hasRecorder, capturing, timerRunning := false, 0, false, false, false;
      chunks, delivered, provider, capturedIsRecording := [], [], OpenAI, false;
    }

    /** `startRecording`; `failed` tells whether the microphone error toast is shown. The
        interval started here keeps the recording flag of the render it was created in,
        the one before the start. */
    method StartRecording(mic: MicOutcome, selectedAI: Provider) returns (failed: bool)
      modifies this
      ensures View() == Start(old(View()), mic)
      ensures chunks == old(chunks) && delivered == old(delivered)
      ensures failed <==> mic.Denied?
      ensures provider == if mic.Granted? then selectedAI else old(provider)
      ensures capturedIsRecording == if mic.Granted? then old(isRecording) else old(capturedIsRecording)
    {
      if mic.Denied? {
        return true;
      }
      capturedIsRecording := isRecording;
      hasRecorder, capturing := true, true;
      provider := selectedAI;
      isRecording, recordingTime := true, 0;
      timerRunning := true;
      failed := false;
    }

    /** One firing of the one-second interval, as written: at the maximum it calls the
        `stopRecording` of the render where recording started, which tests the flag it
        captured there. */
    method TimerTick()
      requires timerRunning
      modifies this
      ensures View() == TickAsWritten(old(View()), capturedIsRecording)
      ensures chunks == old(chunks) && delivered == old(delivered) && provider == old(provider)
      ensures capturedIsRecording == old(capturedIsRecording)
    {
      if recordingTime >= MaxRecordingTime {
        if hasRecorder && capturedIsRecording {
          capturing := false;
          isRecording := false;
          timerRunning := false;
        }
        recordingTime := MaxRecordingTime;
      } else {
        recordingTime := recordingTime + 1;
      }
    }

    /** `stopRecording` from the current render (the stop button). */
    method StopRecording()
      modifies this
      ensures View() == Stop(old(View()))
      ensures chunks == old(chunks) && delivered == old(delivered) && provider == old(provider)
      ensures capturedIsRecording == old(capturedIsRecording)
    {
      if hasRecorder && isRecording {
        capturing := false;
        isRecording := false;
        timerRunning := false;
      }
    }

    /** `ondataavailable`: only a non-empty chunk is buffered, after the others. */
    method OnDataAvailable(chunk: Blob)
      requires Valid()
      modifies this
      ensures Valid() && delivered == old(delivered) + [chunk]
      ensures chunks == old(chunks) + (if |chunk.bytes| > 0 then [chunk] else [])
      ensures View() == old(View()) && provider == old(provider)
      ensures capturedIsRecording == old(capturedIsRecording)
    {
      delivered := delivered + [chunk];
      assert delivered[..|delivered| - 1] == old(delivered);
      if |chunk.bytes| > 0 {
        chunks := chunks + [chunk];
      }
    }

    /** `onstop`: builds the one job to add from the buffer, then empties the buffer. */
    method OnStop(id: string, date: Timestamp) returns (job: TranscriptionJob)
      requires Valid()
      modifies this
      ensures job == RecordingJob(id, date, Kept(old(delivered)), provider)
      ensures job.audioBlob.bytes == Joined(old(delivered))
      ensures chunks == [] && delivered == [] && Valid()
      ensures View() == old(View()) && provider == old(provider)
      ensures capturedIsRecording == old(capturedIsRecording)
    {
      KeptKeepsAudio(delivered);
      job := RecordingJob(id, date, chunks, provider);
      chunks, delivered := [], [];
    }
  }
}
