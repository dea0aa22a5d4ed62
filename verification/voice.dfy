/** The voice-input adapter: a listening/idle flag driven by the microphone
    button and by the recognizer's `onresult`, `onerror` and `onend`
    callbacks. The recognizer itself (when it fires, what it hears, whether
    `start()` throws) is outside the model; its callbacks are events. */
module Voice {
  import opened Wrappers
  import opened AppState

  /** One recognition result: the transcripts of its alternatives, of which
      the handler reads only the first (`result[0].transcript`). A result
      always has at least one alternative. */
  datatype RecognitionResult = RecognitionResult(first: string, others: seq<string>)

  /** `.map(r => r[0]).map(r => r.transcript).join('')`: the first
      transcripts of all results, with no separator between them. */
  function JoinTranscripts(results: seq<RecognitionResult>): string
    decreases |results|
  {
    if |results| == 0 then ""
    else JoinTranscripts(results[..|results| - 1]) + results[|results| - 1].first
  }

  const SpeechErrorPrefix: string := "Speech recognition error: "

  /** `handleToggleListening`: nothing happens without the capability;
      otherwise the flag flips (the recognizer is started or stopped). */
  function Toggle(s: State): (r: State)
    ensures !s.speechSupported ==> r == s
    ensures s.speechSupported ==> r.isListening != s.isListening
    ensures r == s.(isListening := r.isListening)
  {
    if !s.speechSupported then s else s.(isListening := !s.isListening)
  }

  /** `onresult`: the input grows by a space and the joined transcripts;
      the old input is kept as a prefix and nothing else changes. */
  function OnResult(s: State, results: seq<RecognitionResult>): (r: State)
    ensures s.session.ipInput <= r.session.ipInput
    ensures |r.session.ipInput| == |s.session.ipInput| + 1 + |JoinTranscripts(results)|
    ensures r.session.ipInput[|s.session.ipInput|] == ' '
    ensures r.session.ipInput[|s.session.ipInput| + 1..] == JoinTranscripts(results)
    ensures r == s.(session := r.session)
    ensures r.session == s.session.(ipInput := r.session.ipInput)
  {
    s.(session := s.session.(ipInput := s.session.ipInput + " " + JoinTranscripts(results)))
  }

  /** `onerror`: the error slot shows the recognizer's error code and the
      adapter is idle again. */
  function OnError(s: State, code: string): (r: State)
    ensures !r.isListening
    ensures r.error == Some(SpeechErrorPrefix + code)
    ensures r == s.(isListening := false, error := r.error)
  {
    s.(error := Some(SpeechErrorPrefix + code), isListening := false)
  }

  /** `onend`: the adapter is idle again; nothing else changes. */
  function OnEnd(s: State): (r: State)
    ensures !r.isListening
    ensures r == s.(isListening := false)
  {
    s.(isListening := false)
  }

  datatype VoiceEvent =
    | ToggleListening
    | Results(results: seq<RecognitionResult>)
    | RecognizerError(code: string)
    | RecognizerEnd

  function VoiceStep(s: State, e: VoiceEvent): State
  {
    match e
    case ToggleListening => Toggle(s)
    case Results(rs) => OnResult(s, rs)
    case RecognizerError(code) => OnError(s, code)
    case RecognizerEnd => OnEnd(s)
  }

  function VoiceRun(s: State, events: seq<VoiceEvent>): State
    decreases |events|
  {
    if |events| == 0 then s
    else VoiceStep(VoiceRun(s, events[..|events| - 1]), events[|events| - 1])
  }

  /** The adapter never listens on a host without the capability. */
  predicate NeverListensUnsupported(s: State)
  {
    !s.speechSupported ==> !s.isListening
  }

  /** Every voice event keeps that invariant, along any run. */
  lemma {:induction false} VoiceRunKeepsSupportInvariant(s: State, events: seq<VoiceEvent>)
    requires NeverListensUnsupported(s)
    ensures NeverListensUnsupported(VoiceRun(s, events))
    ensures VoiceRun(s, events).speechSupported == s.speechSupported
    decreases |events|
  {
    if |events| > 0 {
      VoiceRunKeepsSupportInvariant(s, events[..|events| - 1]);
    }
  }

  /** Dictation is strictly additive: along any run of voice events, the
      input only grows, never losing what was there. */
  lemma {:induction false} VoiceRunOnlyAppends(s: State, events: seq<VoiceEvent>)
    ensures s.session.ipInput <= VoiceRun(s, events).session.ipInput
    decreases |events|
  {
    if |events| > 0 {
      VoiceRunOnlyAppends(s, events[..|events| - 1]);
    }
  }

  /** Toggling twice restores the adapter's state. */
  lemma ToggleTwice(s: State)
    ensures Toggle(Toggle(s)) == s
  {
  }

  /** Joining distributes over concatenation: results arriving in one event
      contribute their transcripts in order, without separators. */
  lemma {:induction false} JoinAppend(a: seq<RecognitionResult>, b: seq<RecognitionResult>)
    ensures JoinTranscripts(a + b) == JoinTranscripts(a) + JoinTranscripts(b)
    decreases |b|
  {
    if |b| == 0 {
      assert a + b == a;
    } else {
      var front := b[..|b| - 1];
      var last := b[|b| - 1];
      assert (a + b)[..|a + b| - 1] == a + front;
      assert (a + b)[|a + b| - 1] == last;
      JoinAppend(a, front);
      var ja, jf := JoinTranscripts(a), JoinTranscripts(front);
      assert JoinTranscripts(a + b) == (ja + jf) + last.first;
      assert JoinTranscripts(b) == jf + last.first;
      assert (ja + jf) + last.first == ja + (jf + last.first);
    }
  }

  /** A single result contributes its first transcript. */
  lemma JoinSingle(r: RecognitionResult)
    ensures JoinTranscripts([r]) == r.first
  {
    assert [r][..0] == [];
  }

  /** Two result events append their joins, each after its own space. */
  lemma TwoResultEvents(s: State, a: seq<RecognitionResult>, b: seq<RecognitionResult>)
    ensures VoiceRun(s, [Results(a), Results(b)]).session.ipInput
            == s.session.ipInput + " " + JoinTranscripts(a) + " " + JoinTranscripts(b)
  {
    var evs := [Results(a), Results(b)];
    assert evs[..1][..0] == [] && evs[..2][..1] == evs[..1];
    assert VoiceRun(s, evs[..1]) == OnResult(s, a);
  }

  /** Two words in two separate events are separated by a space: "hello"
      and "world" turn an empty input into " hello world". */
  lemma SeparateEventsAreSpaced(s: State, a: string, b: string)
    ensures VoiceRun(s, [Results([RecognitionResult(a, [])]), Results([RecognitionResult(b, [])])]).session.ipInput
            == s.session.ipInput + " " + a + " " + b
  {
    var ra := RecognitionResult(a, []);
    var rb := RecognitionResult(b, []);
    TwoResultEvents(s, [ra], [rb]);
    JoinSingle(ra);
    JoinSingle(rb);
  }

  /** Two words as two results of one event are run together: "hello" and
      "world" turn an empty input into " helloworld". */
  lemma OneEventIsNotSpaced(s: State, a: string, b: string)
    ensures OnResult(s, [RecognitionResult(a, []), RecognitionResult(b, [])]).session.ipInput
            == s.session.ipInput + " " + a + b
  {
    var ra := RecognitionResult(a, []);
    var rb := RecognitionResult(b, []);
    JoinAppend([ra], [rb]);
    assert [ra] + [rb] == [ra, rb];
    JoinSingle(ra);
    JoinSingle(rb);
    assert s.session.ipInput + " " + (a + b) == s.session.ipInput + " " + a + b;
  }

  /** The recognizer runs in continuous mode, where the result list of each
      event holds every result of the session so far, and the handler reads
      all of them (it ignores `resultIndex`): a second event appends the
      first transcript again, so "hello" then "world" turn an empty input
      into " hello helloworld". */
  lemma AccumulatedResultsRepeat(s: State, a: string, b: string)
    ensures var ra := RecognitionResult(a, []);
      var rb := RecognitionResult(b, []);
      OnResult(OnResult(s, [ra]), [ra, rb]).session.ipInput == s.session.ipInput + " " + a + " " + a + b
  {
    var ra := RecognitionResult(a, []);
    var rb := RecognitionResult(b, []);
    JoinSingle(ra);
    JoinAppend([ra], [rb]);
    assert [ra] + [rb] == [ra, rb];
    JoinSingle(rb);
    var x := s.session.ipInput;
    assert x + " " + a + " " + (a + b) == x + " " + a + " " + a + b;
  }
}
