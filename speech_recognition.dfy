/**
 * The speech-recognition controller (`useSpeechRecognition`): a continuous
 * host recognition session, the transcript rebuilt from every result event,
 * auto-restart on end while listening, and the start/stop effect that follows
 * `isListening`.
 */
module SpeechRecognition {
  import opened Wrappers

  /** The alternatives of one recognition result, best first, as their transcripts. */
  type Alternatives = seq<string>

  /**
   * `parts.join("")`: the empty join is "", a single part joins to itself,
   * and (`ConcatAppend`) joining distributes over concatenation.
   */
  function Concat(parts: seq<string>): (r: string)
    ensures parts == [] ==> r == ""
    ensures |parts| == 1 ==> r == parts[0]
    decreases |parts|
  {
    if parts == [] then "" else parts[0] + Concat(parts[1..])
  }

  lemma {:induction false} ConcatAppend(a: seq<string>, b: seq<string>)
    ensures Concat(a + b) == Concat(a) + Concat(b)
    decreases |a|
  {
    if a == [] {
      assert a + b == b;
    } else {
      assert (a + b)[1..] == a[1..] + b;
      ConcatAppend(a[1..], b);
    }
  }

  /** Every result has at least one alternative, so `result[0].transcript` can be read. */
  ghost predicate AllHaveTop(results: seq<Alternatives>) {
    forall i :: 0 <= i < |results| ==> results[i] != []
  }

  /** The top alternative of each result, in host order. */
  function Tops(results: seq<Alternatives>): (tops: seq<string>)
    requires AllHaveTop(results)
    ensures |tops| == |results|
    ensures forall i :: 0 <= i < |results| ==> tops[i] == results[i][0]
  {
    seq(|results|, i requires 0 <= i < |results| => results[i][0])
  }

  /**
   * The transcript the `onresult` handler computes from `event.results`:
   * `None` when some result has no alternative, where reading
   * `result[0].transcript` throws before any state is set.
   */
  function ResultTranscript(results: seq<Alternatives>): (t: Option<string>)
    ensures t.Some? <==> AllHaveTop(results)
    decreases |results|
  {
    if results == [] then Some("")
    else if results[0] == [] then None
    else
      match ResultTranscript(results[1..])
      case None => None
      case Some(rest) => Some(results[0][0] + rest)
  }

  /** The handler's transcript is the join, in order, of every result's alternative 0. */
  lemma {:induction false} ResultTranscriptIsJoin(results: seq<Alternatives>)
    requires AllHaveTop(results)
    ensures ResultTranscript(results) == Some(Concat(Tops(results)))
    decreases |results|
  {
    if results != [] {
      ResultTranscriptIsJoin(results[1..]);
      assert Tops(results)[1..] == Tops(results[1..]);
    }
  }

  /**
   * Rebuilding from scratch agrees with appending when the host re-delivers
   * the earlier results unchanged and adds new ones after them.
   */
  lemma ResultTranscriptExtends(earlier: seq<Alternatives>, added: seq<Alternatives>)
    requires AllHaveTop(earlier) && AllHaveTop(added)
    ensures AllHaveTop(earlier + added)
    ensures ResultTranscript(earlier + added).Some?
    ensures ResultTranscript(earlier + added).value ==
            ResultTranscript(earlier).value + ResultTranscript(added).value
  {
    var all := earlier + added;
    assert AllHaveTop(all) by {
      forall i | 0 <= i < |all| ensures all[i] != [] {
        if i < |earlier| { assert all[i] == earlier[i]; } else { assert all[i] == added[i - |earlier|]; }
      }
    }
    ResultTranscriptIsJoin(earlier);
    ResultTranscriptIsJoin(added);
    ResultTranscriptIsJoin(all);
    assert Tops(all) == Tops(earlier) + Tops(added);
    ConcatAppend(Tops(earlier), Tops(added));
  }

  /** A call made on the host recognition session. */
  datatype HostCall = Start | Stop

  /** How the host session is configured when it is created. */
  datatype SessionConfig = SessionConfig(continuous: bool, interimResults: bool, lang: string, maxAlternatives: nat)

  const SessionSetup := SessionConfig(true, true, "th-TH", 1)

  const NotSupported := "Speech recognition not supported in this browser"
  const RestartFailed := "Error restarting recognition"
  const StartFailed := "Failed to start speech recognition"
  const StopFailed := "Failed to stop speech recognition"
  const ErrorPrefix := "Recognition error: "

  /** The error code after which the session keeps listening. */
  const NoSpeech := "no-speech"

  /**
   * The hook's state: the four state variables, the session held in
   * `recognitionRef`, the `isListening` value the listening effect last ran
   * for, and the calls made on the host session so far.
   */
  class Recognizer {
    var transcript: string
    var isListening: bool
    var isSupported: bool
    var error: Option<string>
    var session: Option<SessionConfig>
    var effectRanFor: Option<bool>
    var hostCalls: seq<HostCall>

    ghost predicate Valid()
      reads this
    {
      && (isSupported <==> session.Some?)
      && (session.Some? ==> session.value == SessionSetup)
    }

    /** No run of the listening effect is pending. */
    predicate Committed()
      reads this
    {
      effectRanFor == Some(isListening)
    }

    /**
     * Mounting: the initial state and the initialisation effect. With a host
     * capability it creates a configured session; without one it reports
     * the feature unsupported. The listening effect is still to run.
     */
    constructor (hostAvailable: bool)
      ensures Valid()
      ensures isSupported == hostAvailable
      ensures session == (if hostAvailable then Some(SessionSetup) else None)
      ensures error == (if hostAvailable then None else Some(NotSupported))
      ensures transcript == "" && !isListening && effectRanFor == None && hostCalls == []
    {
      transcript := "";
      isListening := false;
      effectRanFor := None;
      hostCalls := [];
      if hostAvailable {
        session := Some(SessionSetup);
        isSupported := true;
        error := None;
      } else {
        session := None;
        isSupported := false;
        error := Some(NotSupported);
      }
    }

    /** `startListening`: a no-op while listening; otherwise a fresh session state. */
    method StartListening()
      requires Valid()
      modifies this
      ensures Valid()
      ensures old(isListening) ==> unchanged(this)
      ensures !old(isListening) ==>
                transcript == "" && error == None && isListening &&
                isSupported == old(isSupported) && session == old(session) &&
                effectRanFor == old(effectRanFor) && hostCalls == old(hostCalls)
    {
      if !isListening {
        transcript := "";
        error := None;
        isListening := true;
      }
    }

    /** `stopListening`: a no-op while not listening; otherwise only `isListening` changes. */
    method StopListening()
      requires Valid()
      modifies this
      ensures Valid()
      ensures !old(isListening) ==> unchanged(this)
      ensures !isListening
      ensures transcript == old(transcript) && error == old(error) && isSupported == old(isSupported) &&
              session == old(session) && effectRanFor == old(effectRanFor) && hostCalls == old(hostCalls)
    {
      if isListening {
        isListening := false;
      }
    }

    /**
     * `onresult`: the transcript is replaced by the join of the delivered
     * results' top alternatives and the error is cleared.
     */
    method OnResult(results: seq<Alternatives>)
      requires Valid() && session.Some?
      modifies this
      ensures Valid()
      ensures ResultTranscript(results).None? ==> unchanged(this)
      ensures ResultTranscript(results).Some? ==>
                transcript == ResultTranscript(results).value && error == None
      ensures isListening == old(isListening) && isSupported == old(isSupported) && session == old(session) &&
              effectRanFor == old(effectRanFor) && hostCalls == old(hostCalls)
    {
      match ResultTranscript(results)
      case None =>
      case Some(t) =>
        transcript := t;
        error := None;
    }

    /**
     * `onend` (the handler rebound whenever `isListening` changes): restarts
     * the host session only while listening; a restart that throws stops
     * listening with an error.
     */
    method OnEnd(restartThrows: bool)
      requires Valid() && session.Some?
      modifies this
      ensures Valid()
      ensures !old(isListening) ==> unchanged(this)
      ensures old(isListening) ==> hostCalls == old(hostCalls) + [Start]
      ensures old(isListening) && restartThrows ==> error == Some(RestartFailed) && !isListening
      ensures old(isListening) && !restartThrows ==> error == old(error) && isListening
      ensures transcript == old(transcript) && isSupported == old(isSupported) &&
              session == old(session) && effectRanFor == old(effectRanFor)
    {
      if isListening {
        hostCalls := hostCalls + [Start];
        if restartThrows {
          error := Some(RestartFailed);
          isListening := false;
        }
      }
    }

    /** `onerror`: always reports the code; stops listening unless the code is "no-speech". */
    method OnError(code: string)
      requires Valid() && session.Some?
      modifies this
      ensures Valid()
      ensures error == Some(ErrorPrefix + code)
      ensures isListening == (old(isListening) && code == NoSpeech)
      ensures transcript == old(transcript) && isSupported == old(isSupported) && session == old(session) &&
              effectRanFor == old(effectRanFor) && hostCalls == old(hostCalls)
    {
      error := Some(ErrorPrefix + code);
      if code != NoSpeech {
        isListening := false;
      }
    }

    /**
     * The effect that follows `isListening`: it runs only when `isListening`
     * differs from the value it last ran for. With a session it starts the
     * host session when listening (a throw stops listening with an error)
     * and stops it otherwise (a throw only sets the error).
     */
    method SyncListening(hostThrows: bool)
      requires Valid()
      modifies this
      ensures Valid()
      ensures old(Committed()) ==> unchanged(this)
      ensures !old(Committed()) ==> effectRanFor == Some(old(isListening))
      ensures !old(Committed()) && session.None? ==>
                isListening == old(isListening) && error == old(error) && hostCalls == old(hostCalls)
      ensures !old(Committed()) && session.Some? && old(isListening) ==>
                hostCalls == old(hostCalls) + [Start] &&
                (if hostThrows then error == Some(StartFailed) && !isListening
                 else error == old(error) && isListening)
      ensures !old(Committed()) && session.Some? && !old(isListening) ==>
                hostCalls == old(hostCalls) + [Stop] && !isListening &&
                error == (if hostThrows then Some(StopFailed) else old(error))
      ensures transcript == old(transcript) && isSupported == old(isSupported) && session == old(session)
    {
      if effectRanFor == Some(isListening) {
        return;
      }
      effectRanFor := Some(isListening);
      if session.None? {
        return;
      }
      if isListening {
        hostCalls := hostCalls + [Start];
        if hostThrows {
          error := Some(StartFailed);
          isListening := false;
        }
      } else {
        hostCalls := hostCalls + [Stop];
        if hostThrows {
          error := Some(StopFailed);
        }
      }
    }

    /** Unmounting: the cleanup stops a held session and ignores a throw; no state changes. */
    method Dispose()
      requires Valid()
      modifies this
      ensures Valid()
      ensures hostCalls == old(hostCalls) + (if session.Some? then [Stop] else [])
      ensures transcript == old(transcript) && isListening == old(isListening) && isSupported == old(isSupported) &&
              error == old(error) && session == old(session) && effectRanFor == old(effectRanFor)
    {
      if session.Some? {
        hostCalls := hostCalls + [Stop];
      }
    }
  }

  /** After `stopListening`, a late end event never restarts the host session. */
  method StopThenLateEnd(r: Recognizer, restartThrows: bool)
    requires r.Valid() && r.session.Some?
    modifies r
    ensures r.Valid() && !r.isListening
    ensures r.hostCalls == old(r.hostCalls) && r.transcript == old(r.transcript) && r.error == old(r.error)
  {
    r.StopListening();
    r.OnEnd(restartThrows);
  }

  /**
   * A start whose host call throws: listening is switched back off with an
   * error, and the effect then runs again for `false` and stops the session.
   */
  method FailedStart(r: Recognizer, stopThrows: bool)
    requires r.Valid() && r.session.Some? && !r.isListening && r.Committed()
    modifies r
    ensures r.Valid() && r.Committed() && !r.isListening && r.transcript == ""
    ensures r.hostCalls == old(r.hostCalls) + [Start, Stop]
    ensures r.error == Some(if stopThrows then StopFailed else StartFailed)
  {
    r.StartListening();
    r.SyncListening(true);
    r.SyncListening(stopThrows);
  }
}
