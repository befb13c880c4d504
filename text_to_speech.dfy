/**
 * The result polling of the `TextToSpeech` component and its auto-speak
 * effect: poll the result store until a reply arrives, then show it and
 * speak it.
 */
module TextToSpeech {
  import opened Wrappers
  import opened Text
  import opened SpeechSynthesis

  /** What one `getMessage()` call produced: a thrown error, or data (`None` is null or undefined). */
  datatype FetchOutcome = Failed | Returned(data: Option<string>)

  /** Who issued a fetch: the immediate call on mount or a tick of the interval. */
  datatype Caller = Immediate | Timer

  /** What the component observes, in order: a fetch settling, or the component unmounting. */
  datatype PollEvent = Settled(caller: Caller, outcome: FetchOutcome) | Unmount

  /** `fetchData` once its fetch has settled: whether it reports data, and the result afterwards. */
  datatype Fetched = Fetched(hasData: bool, result: Option<string>)

  function FetchData(isMounted: bool, outcome: FetchOutcome, result: Option<string>): (f: Fetched)
    ensures f.hasData <==> isMounted && outcome.Returned? && outcome.data.Some?
    ensures f.hasData ==> f.result == outcome.data
    ensures !f.hasData ==> f.result == result
  {
    match outcome
    case Failed => Fetched(false, result)
    case Returned(data) =>
      if isMounted && data.Some? then Fetched(true, data) else Fetched(false, result)
  }

  /** The event at `k` is a fetch returning data while the component is still mounted. */
  ghost predicate Delivered(events: seq<PollEvent>, k: int) {
    && 0 <= k < |events|
    && events[k].Settled? && events[k].outcome.Returned? && events[k].outcome.data.Some?
    && Unmount !in events[..k]
  }

  /** The event at `k` is a delivery by an interval tick. */
  ghost predicate TimerDelivered(events: seq<PollEvent>, k: int) {
    Delivered(events, k) && events[k].caller == Timer
  }

  /** The data of the last delivery among the first `n` events, if there is one. */
  ghost function LastDelivered(events: seq<PollEvent>, n: nat): Option<string>
    requires n <= |events|
  {
    if n == 0 then None
    else if Delivered(events, n - 1) then events[n - 1].outcome.data
    else LastDelivered(events, n - 1)
  }

  /** The component's polling state: `isMounted`, whether the interval is scheduled, and `result`. */
  datatype PollState = PollState(isMounted: bool, intervalLive: bool, result: Option<string>)

  /**
   * The polling effect run over the events it observes. The result is the
   * last data delivered while mounted; the interval stays scheduled until
   * the first tick that delivers data or the unmount, so failed fetches,
   * null data and the immediate first call never stop it.
   */
  method Poll(events: seq<PollEvent>) returns (s: PollState)
    ensures s.isMounted <==> Unmount !in events
    ensures s.result == LastDelivered(events, |events|)
    ensures s.intervalLive <==> s.isMounted && !exists k :: TimerDelivered(events, k)
  {
    var isMounted, intervalLive, result := true, true, None;
    var i := 0;
    while i < |events|
      invariant 0 <= i <= |events|
      invariant isMounted <==> Unmount !in events[..i]
      invariant result == LastDelivered(events, i)
      invariant intervalLive <==> isMounted && !exists k :: 0 <= k < i && TimerDelivered(events, k)
    {
      assert events[..i + 1] == events[..i] + [events[i]];
      match events[i] {
        case Unmount =>
          isMounted := false;
          intervalLive := false;
        case Settled(caller, outcome) =>
          var f := FetchData(isMounted, outcome, result);
          assert Delivered(events, i) <==> f.hasData;
          assert TimerDelivered(events, i) <==> f.hasData && caller == Timer;
          result := f.result;
          if f.hasData && caller == Timer {
            intervalLive := false;
          }
      }
      i := i + 1;
    }
    assert events[..|events|] == events;
    s := PollState(isMounted, intervalLive, result);
  }

  /** After the unmount nothing is delivered: later fetches never change the result. */
  lemma {:induction false} LateResultsDiscarded(events: seq<PollEvent>, u: nat, n: nat)
    requires u < |events| && events[u] == Unmount
    requires u <= n <= |events|
    ensures LastDelivered(events, n) == LastDelivered(events, u)
    decreases n
  {
    if n > u {
      if n - 1 > u {
        assert events[..n - 1][u] == Unmount;
      }
      assert !Delivered(events, n - 1);
      LateResultsDiscarded(events, u, n - 1);
    }
  }

  /** The auto-speak effect's decision: the text to show, and whether to speak it. */
  datatype AutoSpeak = AutoSpeak(text: Option<string>, speak: bool)

  /**
   * A truthy (non-empty) result becomes the text, and is spoken only when
   * nothing is being spoken and the voice catalog is not empty.
   */
  function AutoSpeakDecision(result: Option<string>, isSpeaking: bool, voiceCount: nat): (d: AutoSpeak)
    ensures d.text.Some? <==> result.Some? && result.value != ""
    ensures d.text.Some? ==> d.text == result
    ensures d.speak <==> d.text.Some? && !isSpeaking && voiceCount > 0
  {
    match result
    case Some(r) =>
      if r != "" then AutoSpeak(Some(r), !isSpeaking && voiceCount > 0) else AutoSpeak(None, false)
    case None => AutoSpeak(None, false)
  }

  /**
   * The auto-speak effect run against the synthesis controller: sets the
   * text and, when the decision says so, speaks the result.
   */
  method AutoSpeakEffect(result: Option<string>, text: string, synth: Synthesizer,
                         hostVoices: seq<HostVoice>, speakThrows: bool)
    returns (newText: string)
    requires synth.Valid()
    modifies synth
    ensures synth.Valid()
    ensures var d := AutoSpeakDecision(result, old(synth.isSpeaking), |old(synth.voices)|);
            newText == d.text.GetOr(text)
    ensures var d := AutoSpeakDecision(result, old(synth.isSpeaking), |old(synth.voices)|);
            !d.speak ==> unchanged(synth)
    ensures var d := AutoSpeakDecision(result, old(synth.isSpeaking), |old(synth.voices)|);
            d.speak && !IsBlank(result.value) && old(synth.hasSynth) ==>
              synth.Phase() == Idle &&
              synth.utterance == Some(Utterance(result.value, UtteranceVoice(hostVoices), old(synth.rate), old(synth.pitch), 1.0))
    ensures var d := AutoSpeakDecision(result, old(synth.isSpeaking), |old(synth.voices)|);
            d.speak && !IsBlank(result.value) && old(synth.hasSynth) ==>
              var u := Utterance(result.value, UtteranceVoice(hostVoices), old(synth.rate), old(synth.pitch), 1.0);
              synth.hostCalls == old(synth.hostCalls) + [CancelCall, SpeakCall(u)]
    ensures var d := AutoSpeakDecision(result, old(synth.isSpeaking), |old(synth.voices)|);
            d.speak && (IsBlank(result.value) || !old(synth.hasSynth)) ==> unchanged(synth)
    ensures synth.hasSynth == old(synth.hasSynth) && synth.voices == old(synth.voices) &&
            synth.selectedVoice == old(synth.selectedVoice) && synth.rate == old(synth.rate) && synth.pitch == old(synth.pitch)
  {
    var d := AutoSpeakDecision(result, synth.isSpeaking, |synth.voices|);
    newText := d.text.GetOr(text);
    if d.speak {
      synth.Speak(result.value, hostVoices, speakThrows);
    }
  }
}
