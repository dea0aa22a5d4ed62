/** `handleGeminiCall` and the six call sites that use it. A call is three
    discrete events: the click that runs the handler up to its `await`
    (`Begin`), and the settlement of the awaited promise, either a value
    handed to the slot writer (`Succeed`) or a thrown value caught by the
    `catch` (`Fail`). The `finally` clears the call's loading flag on both
    settling paths. Events of different calls may interleave freely. */
module Orchestrator {
  import opened Wrappers
  import opened Types
  import opened AppState
  import Tracker

  /** The three deviation levels of the "Forge" buttons. */
  datatype Level = LowDeviation | MediumDeviation | HighDeviation

  function LevelName(l: Level): string
  {
    match l
    case LowDeviation => "Low"
    case MediumDeviation => "Medium"
    case HighDeviation => "High"
  }

  /** The four call sites that write the narrative slot. */
  datatype NarrativeCall = Divergence | Deviation(level: Level)

  /** The six call sites of `handleGeminiCall`. */
  datatype Call = Analyze | Tropes | Twists | Narrative(origin: NarrativeCall) | Risk

  /** The loading key each call site passes. */
  function Key(c: Call): string
  {
    match c
    case Analyze => "analyze"
    case Tropes => "tropes"
    case Twists => "twists"
    case Narrative(Divergence) => "divergence"
    case Narrative(Deviation(l)) => "deviation-" + LevelName(l)
    case Risk => "risk"
  }

  /** A resolved service promise, tagged with the call that awaited it; its
      payload has the type of the slot that call site's writer fills. */
  datatype Response =
    | Analyzed(analysis: AnalysisResult)
    | TropesListed(tropes: seq<string>)
    | TwistsGenerated(twists: TwistResult)
    | Narrated(origin: NarrativeCall, text: string)
    | RiskAssessed(risk: RiskResult)

  function CallOf(r: Response): Call
  {
    match r
    case Analyzed(_) => Analyze
    case TropesListed(_) => Tropes
    case TwistsGenerated(_) => Twists
    case Narrated(n, _) => Narrative(n)
    case RiskAssessed(_) => Risk
  }

  /** A value thrown inside the `try`: an `Error` carries a message, any
      other thrown value does not. A slot writer that threw would also land
      here, since the `try` encloses the writer call. */
  datatype Thrown = ErrorObject(message: string) | NonError

  const UnknownError: string := "An unknown error occurred."

  /** `err instanceof Error ? err.message : 'An unknown error occurred.'` */
  function Message(t: Thrown): (m: string)
    ensures t.ErrorObject? ==> m == t.message
    ensures t.NonError? ==> m == UnknownError
  {
    match t
    case ErrorObject(msg) => msg
    case NonError => UnknownError
  }

  datatype Event = Begin(call: Call) | Succeed(response: Response) | Fail(call: Call, thrown: Thrown)

  /** The loading key an event concerns. */
  function KeyOf(e: Event): string
  {
    match e
    case Begin(c) => Key(c)
    case Succeed(r) => Key(CallOf(r))
    case Fail(c, _) => Key(c)
  }

  /** The two sessions agree on the input and on every result slot except,
      possibly, the one `c`'s writer fills. */
  predicate OnlySlotOf(s: Session, s': Session, c: Call)
  {
    && s'.ipInput == s.ipInput
    && (!c.Analyze? ==> s'.analysis == s.analysis)
    && (!c.Tropes? ==> s'.tropes == s.tropes)
    && (!c.Twists? ==> s'.twists == s.twists)
    && (!c.Narrative? ==> s'.generatedText == s.generatedText)
    && (!c.Risk? ==> s'.risk == s.risk)
  }

  /** The `onSuccess` writer of the response's call site: `setAnalysis`,
      `setTropes`, `setTwists`, `setGeneratedText` (for all four narrative
      keys) or `setRisk`. */
  function Write(s: Session, r: Response): (s': Session)
    ensures OnlySlotOf(s, s', CallOf(r))
    ensures r.Analyzed? ==> s'.analysis == Some(r.analysis)
    ensures r.TropesListed? ==> s'.tropes == Some(r.tropes)
    ensures r.TwistsGenerated? ==> s'.twists == Some(r.twists)
    ensures r.Narrated? ==> s'.generatedText == r.text
    ensures r.RiskAssessed? ==> s'.risk == Some(r.risk)
  {
    match r
    case Analyzed(a) => s.(analysis := Some(a))
    case TropesListed(t) => s.(tropes := Some(t))
    case TwistsGenerated(t) => s.(twists := Some(t))
    case Narrated(_, text) => s.(generatedText := text)
    case RiskAssessed(k) => s.(risk := Some(k))
  }

  /** Whether the click handler reaches `handleGeminiCall`: only `assessRisk`
      checks anything, and only that the narrative is non-empty. */
  predicate Starts(s: State, c: Call)
  {
    !(c.Risk? && s.session.generatedText == "")
  }

  /** Whether the call's button is enabled: its input is non-empty and its
      key is not loading. This guard lives in the markup, not the handler;
      an enabled button always reaches `handleGeminiCall`. */
  predicate Enabled(s: State, c: Call)
    ensures Enabled(s, c) ==> Starts(s, c)
  {
    (if c.Risk? then s.session.generatedText != "" else s.session.ipInput != "")
    && !Tracker.IsPending(s.isLoading, Key(c))
  }

  /** One event. `Begin` sets the key's flag, then clears the error slot;
      `Succeed` runs the writer; `Fail` stores the message; both settling
      events then clear the key's flag. Nothing else in the state moves. */
  function Step(s: State, e: Event): (r: State)
    ensures r.projects == s.projects && r.isListening == s.isListening
    ensures r.speechSupported == s.speechSupported
    ensures r.session.ipInput == s.session.ipInput
    ensures forall k :: k != KeyOf(e) ==> Tracker.Agree(s.isLoading, r.isLoading, k)
    ensures e.Begin? && Starts(s, e.call) ==>
              Tracker.IsPending(r.isLoading, KeyOf(e)) && r.error == None && r.session == s.session
    ensures e.Begin? && !Starts(s, e.call) ==> r == s
    ensures !e.Begin? ==> !Tracker.IsPending(r.isLoading, KeyOf(e))
    ensures e.Succeed? ==> r.error == s.error && r.session == Write(s.session, e.response)
    ensures e.Fail? ==> r.error == Some(Message(e.thrown)) && r.session == s.session
  {
    match e
    case Begin(c) =>
      if Starts(s, c) then
        var s1 := s.(isLoading := Tracker.Begin(s.isLoading, Key(c)));
        s1.(error := None)
      else s
    case Succeed(resp) =>
      var s1 := s.(session := Write(s.session, resp));
      s1.(isLoading := Tracker.End(s1.isLoading, Key(CallOf(resp))))
    case Fail(c, t) =>
      var s1 := s.(error := Some(Message(t)));
      s1.(isLoading := Tracker.End(s1.isLoading, Key(c)))
  }

  /** A sequence of events applied in order. */
  function Run(s: State, events: seq<Event>): State
    decreases |events|
  {
    if |events| == 0 then s
    else Step(Run(s, events[..|events| - 1]), events[|events| - 1])
  }

  /** Running two sequences one after the other is running their
      concatenation. */
  lemma {:induction false} RunAppend(s: State, a: seq<Event>, b: seq<Event>)
    ensures Run(s, a + b) == Run(Run(s, a), b)
    decreases |b|
  {
    if |b| == 0 {
      assert a + b == a;
    } else {
      assert (a + b)[..|a + b| - 1] == a + b[..|b| - 1];
      RunAppend(s, a, b[..|b| - 1]);
    }
  }

  /** No key shares its loading flag with another call site. */
  lemma KeyInjective(c1: Call, c2: Call)
    requires Key(c1) == Key(c2)
    ensures c1 == c2
  {
    if c1.Narrative? && c1.origin.Deviation? && c2.Narrative? && c2.origin.Deviation? {
      assert Key(c1)[10] == LevelName(c1.origin.level)[0];
      assert Key(c2)[10] == LevelName(c2.origin.level)[0];
    }
  }

  /** A key that no event of the run mentions keeps its loading flag. */
  lemma {:induction false} UntouchedKey(s: State, events: seq<Event>, k: string)
    requires forall i :: 0 <= i < |events| ==> KeyOf(events[i]) != k
    ensures Tracker.Agree(s.isLoading, Run(s, events).isLoading, k)
    decreases |events|
  {
    if |events| > 0 {
      var prefix := events[..|events| - 1];
      UntouchedKey(s, prefix, k);
      Tracker.AgreeTrans(s.isLoading, Run(s, prefix).isLoading, Run(s, events).isLoading, k);
    }
  }

  /** After the event that settles a call, with only other keys' events
      after it, the call's key is not loading. */
  lemma SettledKeyIdle(s: State, before: seq<Event>, e: Event, after: seq<Event>)
    requires !e.Begin?
    requires forall i :: 0 <= i < |after| ==> KeyOf(after[i]) != KeyOf(e)
    ensures !Tracker.IsPending(Run(s, before + [e] + after).isLoading, KeyOf(e))
  {
    RunAppend(s, before + [e], after);
    var mid := Run(s, before + [e]);
    assert (before + [e])[..|before + [e]| - 1] == before;
    UntouchedKey(mid, after, KeyOf(e));
  }

  /** After a started call whose key no later event mentions, the key is
      loading: together with `SettledKeyIdle`, the flag follows the last
      event of its own key. */
  lemma BegunKeyPending(s: State, before: seq<Event>, c: Call, after: seq<Event>)
    requires Starts(Run(s, before), c)
    requires forall i :: 0 <= i < |after| ==> KeyOf(after[i]) != Key(c)
    ensures Tracker.IsPending(Run(s, before + [Begin(c)] + after).isLoading, Key(c))
  {
    RunAppend(s, before + [Begin(c)], after);
    var mid := Run(s, before + [Begin(c)]);
    assert (before + [Begin(c)])[..|before + [Begin(c)]| - 1] == before;
    UntouchedKey(mid, after, Key(c));
  }

  /** The narrative text an independent reading of the events predicts: the
      text of the last narrative response, whichever of the four narrative
      keys it came from, or `initial` if there is none. */
  function LastNarration(events: seq<Event>, initial: string): string
    decreases |events|
  {
    if |events| == 0 then initial
    else
      var e := events[|events| - 1];
      if e.Succeed? && e.response.Narrated? then e.response.text
      else LastNarration(events[..|events| - 1], initial)
  }

  /** The narrative slot is shared by the divergence and the three deviation
      keys: the last narrative response to settle wins. */
  lemma {:induction false} NarrativeSlotIsLastNarration(s: State, events: seq<Event>)
    ensures Run(s, events).session.generatedText == LastNarration(events, s.session.generatedText)
    decreases |events|
  {
    if |events| > 0 {
      NarrativeSlotIsLastNarration(s, events[..|events| - 1]);
    }
  }

  /** A failed analysis followed by a successful trope listing: the error
      slot ends empty, the tropes are stored, the analysis is untouched and
      neither key is loading. */
  lemma FailureDoesNotLeak(s: State, t: Thrown, tropes: seq<string>)
    ensures var s1 := Step(s, Begin(Analyze));
      var s2 := Step(s1, Fail(Analyze, t));
      var s3 := Step(s2, Begin(Tropes));
      var r := Step(s3, Succeed(TropesListed(tropes)));
      && r.error == None
      && r.session.tropes == Some(tropes)
      && r.session.analysis == s.session.analysis
      && !Tracker.IsPending(r.isLoading, Key(Analyze))
      && !Tracker.IsPending(r.isLoading, Key(Tropes))
  {
    var s1 := Step(s, Begin(Analyze));
    var s2 := Step(s1, Fail(Analyze, t));
    var s3 := Step(s2, Begin(Tropes));
    assert Tracker.Agree(s2.isLoading, s3.isLoading, Key(Analyze));
  }

  /** A handler started with an empty input is not refused: only the
      disabled button stands between an empty input and a request. */
  lemma EmptyInputOnlyGuardedByButton(s: State, c: Call)
    requires !c.Risk? && s.session.ipInput == ""
    ensures !Enabled(s, c)
    ensures Tracker.IsPending(Step(s, Begin(c)).isLoading, Key(c))
  {
  }

  /** `assessRisk` is the one handler that checks its own input. */
  lemma RiskHandlerChecksNarrative(s: State)
    requires s.session.generatedText == ""
    ensures Step(s, Begin(Risk)) == s
  {
  }
}
