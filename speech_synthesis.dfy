/**
 * The speech-synthesis controller (`useSpeechSynthesis`): the filtered voice
 * catalog and its default voice, and the speaking/paused flags driven by
 * speak, pause, resume, stop and the utterance callbacks.
 */
module SpeechSynthesis {
  import opened Wrappers
  import opened Lists
  import opened Text

  /** A voice as the host reports it (`SpeechSynthesisVoice`). */
  datatype HostVoice = HostVoice(name: string, lang: string, voiceURI: string, localService: bool, isDefault: bool)

  /** The hook's own voice record: a copy of three of the host's fields. */
  datatype Voice = Voice(name: string, lang: string, voiceURI: string)

  function Snapshot(h: HostVoice): (v: Voice)
    ensures v.name == h.name && v.lang == h.lang && v.voiceURI == h.voiceURI
  {
    Voice(h.name, h.lang, h.voiceURI)
  }

  /** The catalog keeps the voices whose language tag contains "th" or "en". */
  predicate Listed(h: HostVoice) {
    Includes(h.lang, "th") || Includes(h.lang, "en")
  }

  predicate IsThai(v: Voice) {
    Includes(v.lang, "th")
  }

  predicate IsThaiHost(h: HostVoice) {
    Includes(h.lang, "th")
  }

  /** `loadVoices`' filter-and-copy over the host catalog. */
  function FilterVoices(hs: seq<HostVoice>): (vs: seq<Voice>)
    ensures |vs| <= |hs|
    ensures forall i :: 0 <= i < |vs| ==> Includes(vs[i].lang, "th") || Includes(vs[i].lang, "en")
    decreases |hs|
  {
    if hs == [] then []
    else (if Listed(hs[0]) then [Snapshot(hs[0])] else []) + FilterVoices(hs[1..])
  }

  /** Filtering distributes over concatenation, so host order is kept. */
  lemma {:induction false} FilterVoicesAppend(a: seq<HostVoice>, b: seq<HostVoice>)
    ensures FilterVoices(a + b) == FilterVoices(a) + FilterVoices(b)
    decreases |a|
  {
    if a == [] {
      assert a + b == b;
    } else {
      assert (a + b)[1..] == a[1..] + b;
      FilterVoicesAppend(a[1..], b);
    }
  }

  /** The catalog is exactly the copies of the listed host voices. */
  lemma {:induction false} FilterVoicesMembers(hs: seq<HostVoice>, v: Voice)
    ensures v in FilterVoices(hs) <==> exists i :: 0 <= i < |hs| && Listed(hs[i]) && Snapshot(hs[i]) == v
    decreases |hs|
  {
    if hs != [] {
      FilterVoicesMembers(hs[1..], v);
      if exists i :: 0 <= i < |hs[1..]| && Listed(hs[1..][i]) && Snapshot(hs[1..][i]) == v {
        var i :| 0 <= i < |hs[1..]| && Listed(hs[1..][i]) && Snapshot(hs[1..][i]) == v;
        assert hs[i + 1] == hs[1..][i];
      }
      if exists i :: 0 <= i < |hs| && Listed(hs[i]) && Snapshot(hs[i]) == v {
        var i :| 0 <= i < |hs| && Listed(hs[i]) && Snapshot(hs[i]) == v;
        if i > 0 {
          assert hs[1..][i - 1] == hs[i];
        }
      }
    }
  }

  /** The first Thai voice of a catalog. */
  function FirstThai(vs: seq<Voice>): (r: Option<Voice>)
    ensures r.Some? ==> r.value in vs && IsThai(r.value)
    ensures r.Some? ==> exists i :: 0 <= i < |vs| && vs[i] == r.value && forall j :: 0 <= j < i ==> !IsThai(vs[j])
    ensures r.None? <==> forall i :: 0 <= i < |vs| ==> !IsThai(vs[i])
  {
    match FindFirst(vs, IsThai)
    case Some(i) => Some(vs[i])
    case None => None
  }

  /**
   * The default voice `loadVoices` selects: the first Thai voice, otherwise
   * the first voice, and with an empty catalog the current selection.
   */
  function DefaultVoice(vs: seq<Voice>, current: string): (uri: string)
    ensures vs == [] ==> uri == current
    ensures forall i :: 0 <= i < |vs| && IsThai(vs[i]) && (forall j :: 0 <= j < i ==> !IsThai(vs[j])) ==>
              uri == vs[i].voiceURI
    ensures vs != [] && (forall i :: 0 <= i < |vs| ==> !IsThai(vs[i])) ==> uri == vs[0].voiceURI
    ensures vs != [] ==> exists i :: 0 <= i < |vs| && uri == vs[i].voiceURI
  {
    match FindFirst(vs, IsThai)
    case Some(i) =>
      assert forall k :: 0 <= k < |vs| && IsThai(vs[k]) && (forall j :: 0 <= j < k ==> !IsThai(vs[j])) ==> k == i;
      vs[i].voiceURI
    case None => if |vs| > 0 then vs[0].voiceURI else current
  }

  /**
   * The voice `speak` puts on the utterance: the first voice of the
   * unfiltered host list whose language contains "th", or none.
   */
  function UtteranceVoice(host: seq<HostVoice>): (r: Option<HostVoice>)
    ensures r.Some? ==> r.value in host && IsThaiHost(r.value)
    ensures r.Some? ==> exists i :: 0 <= i < |host| && host[i] == r.value && forall j :: 0 <= j < i ==> !IsThaiHost(host[j])
    ensures r.None? <==> forall i :: 0 <= i < |host| ==> !IsThaiHost(host[i])
  {
    match FindFirst(host, IsThaiHost)
    case Some(i) => Some(host[i])
    case None => None
  }

  /** Filtering keeps every Thai voice, so the first Thai voice survives it. */
  lemma {:induction false} FirstThaiSurvivesFilter(host: seq<HostVoice>)
    ensures FirstThai(FilterVoices(host)) ==
            match UtteranceVoice(host) case Some(h) => Some(Snapshot(h)) case None => None
    decreases |host|
  {
    if host != [] {
      var rest := host[1..];
      var pre := if Listed(host[0]) then [Snapshot(host[0])] else [];
      assert FilterVoices(host) == pre + FilterVoices(rest);
      if IsThaiHost(host[0]) {
        assert FindFirst(FilterVoices(host), IsThai) == Some(0);
      } else {
        FirstThaiSurvivesFilter(rest);
        FindFirstAppend(pre, FilterVoices(rest), IsThai);
        match FindFirst(rest, IsThaiHost)
        case Some(k) =>
          assert host[k + 1] == rest[k];
          FindFirstUnique(host, IsThaiHost, k + 1);
        case None =>
      }
    }
  }

  /**
   * When the host has a Thai voice, the voice `speak` uses is the one that
   * loading the catalog selects by default.
   */
  lemma SpeakVoiceIsDefaultWhenThai(host: seq<HostVoice>, current: string)
    requires UtteranceVoice(host).Some?
    ensures DefaultVoice(FilterVoices(host), current) == UtteranceVoice(host).value.voiceURI
  {
    FirstThaiSurvivesFilter(host);
    var vs := FilterVoices(host);
    var i := FindFirst(vs, IsThai).value;
    assert vs[i] == Snapshot(UtteranceVoice(host).value);
  }

  /**
   * Without a Thai voice the default selection is the first English voice,
   * yet `speak` leaves the utterance voice unset: the two disagree.
   */
  lemma SpeakIgnoresDefaultWithoutThai(current: string)
    ensures var host := [HostVoice("English", "en-US", "urn:en-US", true, true)];
            DefaultVoice(FilterVoices(host), current) == "urn:en-US" && UtteranceVoice(host) == None
  {
    var host := [HostVoice("English", "en-US", "urn:en-US", true, true)];
    assert Includes("en-US", "en");
    assert !Includes("", "th");
    assert !Includes("S", "th");
    assert "US"[..2] != "th" by { assert "US"[..2][0] == 'U'; }
    assert !Includes("US", "th");
    assert !Includes("-US", "th");
    assert !Includes("n-US", "th");
    assert !Includes("en-US", "th");
    assert FilterVoices(host) == [Voice("English", "en-US", "urn:en-US")];
  }

  /** One utterance as `speak` configures it. */
  datatype Utterance = Utterance(text: string, voice: Option<HostVoice>, rate: real, pitch: real, volume: real)

  /** A call made on the host synthesis object. */
  datatype SynthCall = CancelCall | SpeakCall(utterance: Utterance) | PauseCall | ResumeCall

  /** The three states the two flags encode. */
  datatype Phase = Idle | Speaking | Paused

  /**
   * The hook's state. `hasSynth` says whether `speechSynthRef` holds a host
   * synthesis object; `hostCalls` records the calls made on it.
   */
  class Synthesizer {
    var hasSynth: bool
    var voices: seq<Voice>
    var selectedVoice: string
    var rate: real
    var pitch: real
    var isSpeaking: bool
    var isPaused: bool
    var utterance: Option<Utterance>
    var hostCalls: seq<SynthCall>

    /** Paused implies speaking. */
    ghost predicate Valid()
      reads this
    {
      isPaused ==> isSpeaking
    }

    function Phase(): Phase
      reads this
    {
      if !isSpeaking then Idle else if isPaused then Paused else Speaking
    }

    /** Mounting: the initial state, then `loadVoices` once. */
    constructor (hostAvailable: bool, hostVoices: seq<HostVoice>)
      ensures Valid() && Phase() == Idle
      ensures hasSynth == hostAvailable
      ensures voices == FilterVoices(if hostAvailable then hostVoices else [])
      ensures selectedVoice == DefaultVoice(voices, "")
      ensures rate == 1.0 && pitch == 1.0 && utterance == None && hostCalls == []
    {
      hasSynth := hostAvailable;
      rate, pitch := 1.0, 1.0;
      isSpeaking, isPaused := false, false;
      utterance := None;
      hostCalls := [];
      var catalog := FilterVoices(if hostAvailable then hostVoices else []);
      voices := catalog;
      selectedVoice := DefaultVoice(catalog, "");
    }

    /** `loadVoices` on a `voiceschanged` event: replaces the catalog and reselects the default. */
    method LoadVoices(hostVoices: seq<HostVoice>)
      requires Valid()
      modifies this
      ensures Valid()
      ensures voices == FilterVoices(if hasSynth then hostVoices else [])
      ensures selectedVoice == DefaultVoice(voices, old(selectedVoice))
      ensures hasSynth == old(hasSynth) && rate == old(rate) && pitch == old(pitch) &&
              isSpeaking == old(isSpeaking) && isPaused == old(isPaused) &&
              utterance == old(utterance) && hostCalls == old(hostCalls)
    {
      var available := if hasSynth then hostVoices else [];
      voices := FilterVoices(available);
      selectedVoice := DefaultVoice(voices, selectedVoice);
    }

    /** `setSelectedVoice`. */
    method SelectVoice(uri: string)
      modifies this`selectedVoice
      ensures selectedVoice == uri
    {
      selectedVoice := uri;
    }

    /** `setRate`: any value is accepted; the settings slider keeps it in [0.5, 2]. */
    method SetRate(r: real)
      modifies this`rate
      ensures rate == r
    {
      rate := r;
    }

    /** `setPitch`: any value is accepted; the settings slider keeps it in [0.5, 2]. */
    method SetPitch(p: real)
      modifies this`pitch
      ensures pitch == p
    {
      pitch := p;
    }

    /** `stop`: with a host object, cancels playback and goes idle. */
    method Stop()
      requires Valid()
      modifies this
      ensures Valid()
      ensures !old(hasSynth) ==> unchanged(this)
      ensures old(hasSynth) ==> Phase() == Idle && hostCalls == old(hostCalls) + [CancelCall]
      ensures hasSynth == old(hasSynth) && voices == old(voices) && selectedVoice == old(selectedVoice) &&
              rate == old(rate) && pitch == old(pitch) && utterance == old(utterance)
    {
      if hasSynth {
        hostCalls := hostCalls + [CancelCall];
        isSpeaking := false;
        isPaused := false;
      }
    }

    /**
     * `speak(text)`: nothing for blank text or without a host object.
     * Otherwise it stops, builds an utterance with the host's first Thai
     * voice (whatever the selection), the current rate and pitch and volume
     * 1, and hands it to the host. It does not itself mark speaking: only the
     * host's start callback does. `speakThrows` says the host call throws; the
     * call is logged either way, since it was made.
     */
    method Speak(text: string, hostVoices: seq<HostVoice>, speakThrows: bool)
      requires Valid()
      modifies this
      ensures Valid()
      ensures IsBlank(text) || !old(hasSynth) ==> unchanged(this)
      ensures !IsBlank(text) && old(hasSynth) ==>
                var u := Utterance(text, UtteranceVoice(hostVoices), old(rate), old(pitch), 1.0);
                && Phase() == Idle
                && utterance == Some(u)
                && hostCalls == old(hostCalls) + [CancelCall, SpeakCall(u)]
      ensures hasSynth == old(hasSynth) && voices == old(voices) && selectedVoice == old(selectedVoice) &&
              rate == old(rate) && pitch == old(pitch)
    {
      if Trim(text) == [] || !hasSynth {
        return;
      }
      Stop();
      var u := Utterance(text, UtteranceVoice(hostVoices), rate, pitch, 1.0);
      utterance := Some(u);
      hostCalls := hostCalls + [SpeakCall(u)];
      if speakThrows {
        isSpeaking := false;
        isPaused := false;
      }
    }

    /** `pause`: only from speaking, and only with a host object. */
    method Pause()
      requires Valid()
      modifies this
      ensures Valid()
      ensures !(old(hasSynth) && old(isSpeaking)) ==> unchanged(this)
      ensures old(hasSynth) && old(isSpeaking) ==> Phase() == Paused && hostCalls == old(hostCalls) + [PauseCall]
      ensures isSpeaking == old(isSpeaking) && hasSynth == old(hasSynth) && voices == old(voices) &&
              selectedVoice == old(selectedVoice) && rate == old(rate) && pitch == old(pitch) &&
              utterance == old(utterance)
    {
      if hasSynth && isSpeaking {
        hostCalls := hostCalls + [PauseCall];
        isPaused := true;
      }
    }

    /** `resume`: only from paused, and only with a host object. */
    method Resume()
      requires Valid()
      modifies this
      ensures Valid()
      ensures !(old(hasSynth) && old(isPaused)) ==> unchanged(this)
      ensures old(hasSynth) && old(isPaused) ==> Phase() == Speaking && hostCalls == old(hostCalls) + [ResumeCall]
      ensures isSpeaking == old(isSpeaking) && hasSynth == old(hasSynth) && voices == old(voices) &&
              selectedVoice == old(selectedVoice) && rate == old(rate) && pitch == old(pitch) &&
              utterance == old(utterance)
    {
      if hasSynth && isPaused {
        hostCalls := hostCalls + [ResumeCall];
        isPaused := false;
      }
    }

    /** The utterance's `onstart`: speaking, the paused flag untouched. */
    method OnStart()
      requires Valid()
      modifies this`isSpeaking
      ensures Valid()
      ensures isSpeaking && isPaused == old(isPaused)
    {
      isSpeaking := true;
    }

    /** The utterance's `onend`: idle. */
    method OnEnd()
      requires Valid()
      modifies this`isSpeaking, this`isPaused
      ensures Valid() && Phase() == Idle
      ensures !isSpeaking && !isPaused
    {
      isSpeaking := false;
      isPaused := false;
    }

    /** The utterance's `onerror`: idle. */
    method OnError()
      requires Valid()
      modifies this`isSpeaking, this`isPaused
      ensures Valid() && Phase() == Idle
      ensures !isSpeaking && !isPaused
    {
      isSpeaking := false;
      isPaused := false;
    }
  }
}
