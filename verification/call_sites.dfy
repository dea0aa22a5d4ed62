/** The six call sites as a whole: each click handler passes a service
    operation to `handleGeminiCall`, and how that operation's promise
    settles decides the event the orchestrator sees. The response text and
    the JSON parser are parameters; the service operations decide between a
    resolved value and a thrown `Error`. */
module CallSites {
  import opened Wrappers
  import opened Types
  import opened AppState
  import opened JsText
  import opened GeminiService
  import opened Orchestrator
  import Tracker

  /** `JSON.parse` at the type each structured call site casts to. */
  datatype Parsers = Parsers(
    analysis: string -> Option<AnalysisResult>,
    tropes: string -> Option<TropesPayload>,
    twists: string -> Option<TwistResult>,
    risk: string -> Option<RiskResult>)

  /** The message of the `Error` a call site's service operation throws when
      the response is rejected; the narrative operation never throws one. */
  function FailureOf(c: Call): Option<string>
  {
    match c
    case Analyze => Some(AnalysisFailure)
    case Tropes => Some(TropesFailure)
    case Twists => Some(TwistsFailure)
    case Narrative(_) => None
    case Risk => Some(RiskFailure)
  }

  /** The `try` of `handleGeminiCall` around the analysis call site: a
      resolved `analyzeIP` reaches `setAnalysis`, a thrown `Error` reaches
      the `catch`. */
  function AwaitAnalysis(r: Result<AnalysisResult>): Event
  {
    match r
    case Ok(v) => Succeed(Analyzed(v))
    case Err(m) => Fail(Analyze, ErrorObject(m))
  }

  /** The same for the trope call site and `setTropes`. */
  function AwaitTropes(r: Result<seq<string>>): Event
  {
    match r
    case Ok(v) => Succeed(TropesListed(v))
    case Err(m) => Fail(Tropes, ErrorObject(m))
  }

  /** The same for the twist call site and `setTwists`. */
  function AwaitTwists(r: Result<TwistResult>): Event
  {
    match r
    case Ok(v) => Succeed(TwistsGenerated(v))
    case Err(m) => Fail(Twists, ErrorObject(m))
  }

  /** The same for the risk call site and `setRisk`. */
  function AwaitRisk(r: Result<RiskResult>): Event
  {
    match r
    case Ok(v) => Succeed(RiskAssessed(v))
    case Err(m) => Fail(Risk, ErrorObject(m))
  }

  /** The same for a narrative call site and `setGeneratedText`. */
  function AwaitNarrative(o: NarrativeCall, r: Result<string>): Event
  {
    match r
    case Ok(v) => Succeed(Narrated(o, v))
    case Err(m) => Fail(Narrative(o), ErrorObject(m))
  }

  /** The settlement of call `c` when the service answers `text`: the call
      site's service operation applied to the response. */
  function Settle(c: Call, text: string, p: Parsers): Event
  {
    match c
    case Analyze => AwaitAnalysis(AnalyzeIP(text, p.analysis))
    case Tropes => AwaitTropes(ExploreTropes(text, p.tropes))
    case Twists => AwaitTwists(GenerateTwists(text, p.twists))
    case Narrative(o) => AwaitNarrative(o, GenerateNarrative(text))
    case Risk => AwaitRisk(AssessRisk(text, p.risk))
  }

  /** `e` is a settlement of call `c`: a success or failure of that call,
      concerning its loading key. */
  predicate SettlesCall(e: Event, c: Call)
  {
    && !e.Begin? && KeyOf(e) == Key(c)
    && (e.Succeed? ==> CallOf(e.response) == c)
    && (e.Fail? ==> e.call == c)
  }

  /** Each call site's `try` settles its own call, whatever the service
      operation returned. */
  lemma AwaitsSettleTheirCalls(ra: Result<AnalysisResult>, rt: Result<seq<string>>,
                               rw: Result<TwistResult>, rr: Result<RiskResult>,
                               o: NarrativeCall, rn: Result<string>)
    ensures SettlesCall(AwaitAnalysis(ra), Analyze)
    ensures SettlesCall(AwaitTropes(rt), Tropes)
    ensures SettlesCall(AwaitTwists(rw), Twists)
    ensures SettlesCall(AwaitRisk(rr), Risk)
    ensures SettlesCall(AwaitNarrative(o, rn), Narrative(o))
  {
  }

  /** Every settlement concerns its own call's key: it settles the call
      it was started for and clears that call's flag. */
  lemma SettleConcernsItsCall(c: Call, text: string, p: Parsers)
    ensures SettlesCall(Settle(c, text, p), c)
  {
    var o := if c.Narrative? then c.origin else Divergence;
    AwaitsSettleTheirCalls(AnalyzeIP(text, p.analysis), ExploreTropes(text, p.tropes),
                           GenerateTwists(text, p.twists), AssessRisk(text, p.risk),
                           o, GenerateNarrative(text));
  }

  /** A thrown value carries the failure message of the call site that
      threw it, and only the four structured call sites throw. */
  lemma SettleFailureMessage(c: Call, text: string, p: Parsers)
    ensures var e := Settle(c, text, p);
      e.Fail? ==> FailureOf(c) == Some(Message(e.thrown))
    ensures c.Narrative? ==> Settle(c, text, p).Succeed?
  {
  }

  /** What the orchestrator does with each call site's settlement. */
  lemma StepAwaitAnalysis(s: State, res: Result<AnalysisResult>)
    ensures var r := Step(s, AwaitAnalysis(res));
      && !Tracker.IsPending(r.isLoading, Key(Analyze))
      && (res.Err? ==> r.error == Some(res.message) && r.session == s.session)
      && (res.Ok? ==> r.error == s.error && r.session == s.session.(analysis := Some(res.value)))
  {
  }

  lemma StepAwaitTropes(s: State, res: Result<seq<string>>)
    ensures var r := Step(s, AwaitTropes(res));
      && !Tracker.IsPending(r.isLoading, Key(Tropes))
      && (res.Err? ==> r.error == Some(res.message) && r.session == s.session)
      && (res.Ok? ==> r.error == s.error && r.session == s.session.(tropes := Some(res.value)))
  {
  }

  lemma StepAwaitTwists(s: State, res: Result<TwistResult>)
    ensures var r := Step(s, AwaitTwists(res));
      && !Tracker.IsPending(r.isLoading, Key(Twists))
      && (res.Err? ==> r.error == Some(res.message) && r.session == s.session)
      && (res.Ok? ==> r.error == s.error && r.session == s.session.(twists := Some(res.value)))
  {
  }

  lemma StepAwaitRisk(s: State, res: Result<RiskResult>)
    ensures var r := Step(s, AwaitRisk(res));
      && !Tracker.IsPending(r.isLoading, Key(Risk))
      && (res.Err? ==> r.error == Some(res.message) && r.session == s.session)
      && (res.Ok? ==> r.error == s.error && r.session == s.session.(risk := Some(res.value)))
  {
  }

  /** The analysis call: a rejected parse shows the analysis message and
      keeps every slot; an accepted one fills the analysis slot with the
      parsed value and keeps the error. Either way the key is idle. */
  lemma AnalysisSettles(s: State, text: string, p: Parsers)
    ensures var r := Step(s, Settle(Analyze, text, p));
      && !Tracker.IsPending(r.isLoading, Key(Analyze))
      && (p.analysis(Clean(text)).None? ==>
            r.error == Some(AnalysisFailure) && r.session == s.session)
      && (p.analysis(Clean(text)).Some? ==>
            r.error == s.error && r.session == s.session.(analysis := p.analysis(Clean(text))))
  {
    var res := AnalyzeIP(text, p.analysis);
    var parsed := p.analysis(Clean(text));
    assert Settle(Analyze, text, p) == AwaitAnalysis(res);
    StepAwaitAnalysis(s, res);
    if parsed.None? {
      assert res.Err? && res.message == AnalysisFailure;
    } else {
      assert res.Ok? && Some(res.value) == parsed;
    }
  }

  /** The trope call: a rejected parse or a missing `tropes` field shows the
      trope message and keeps every slot; otherwise the slot holds exactly
      the parsed array. */
  lemma TropesSettle(s: State, text: string, p: Parsers)
    ensures var r := Step(s, Settle(Tropes, text, p));
      var parsed := p.tropes(Clean(text));
      && !Tracker.IsPending(r.isLoading, Key(Tropes))
      && (parsed.None? || parsed.value.tropes.None? ==>
            r.error == Some(TropesFailure) && r.session == s.session)
      && (parsed.Some? && parsed.value.tropes.Some? ==>
            r.error == s.error && r.session == s.session.(tropes := parsed.value.tropes))
  {
    var res := ExploreTropes(text, p.tropes);
    var parsed := p.tropes(Clean(text));
    assert Settle(Tropes, text, p) == AwaitTropes(res);
    StepAwaitTropes(s, res);
    if parsed.None? || parsed.value.tropes.None? {
      assert res.Err? && res.message == TropesFailure;
    } else {
      assert res.Ok? && Some(res.value) == parsed.value.tropes;
    }
  }

  /** The twist call, as the analysis call with the twist message. */
  lemma TwistsSettle(s: State, text: string, p: Parsers)
    ensures var r := Step(s, Settle(Twists, text, p));
      && !Tracker.IsPending(r.isLoading, Key(Twists))
      && (p.twists(Clean(text)).None? ==>
            r.error == Some(TwistsFailure) && r.session == s.session)
      && (p.twists(Clean(text)).Some? ==>
            r.error == s.error && r.session == s.session.(twists := p.twists(Clean(text))))
  {
    var res := GenerateTwists(text, p.twists);
    var parsed := p.twists(Clean(text));
    assert Settle(Twists, text, p) == AwaitTwists(res);
    StepAwaitTwists(s, res);
    if parsed.None? {
      assert res.Err? && res.message == TwistsFailure;
    } else {
      assert res.Ok? && Some(res.value) == parsed;
    }
  }

  /** The risk call, as the analysis call with the risk message. */
  lemma RiskSettles(s: State, text: string, p: Parsers)
    ensures var r := Step(s, Settle(Risk, text, p));
      && !Tracker.IsPending(r.isLoading, Key(Risk))
      && (p.risk(Clean(text)).None? ==>
            r.error == Some(RiskFailure) && r.session == s.session)
      && (p.risk(Clean(text)).Some? ==>
            r.error == s.error && r.session == s.session.(risk := p.risk(Clean(text))))
  {
    var res := AssessRisk(text, p.risk);
    var parsed := p.risk(Clean(text));
    assert Settle(Risk, text, p) == AwaitRisk(res);
    StepAwaitRisk(s, res);
    if parsed.None? {
      assert res.Err? && res.message == RiskFailure;
    } else {
      assert res.Ok? && Some(res.value) == parsed;
    }
  }

  /** All four narrative keys store the raw response text, fences and
      surrounding white space included, and never show an error. */
  lemma NarrativeSettles(s: State, o: NarrativeCall, text: string, p: Parsers)
    ensures var r := Step(s, Settle(Narrative(o), text, p));
      && !Tracker.IsPending(r.isLoading, Key(Narrative(o)))
      && r.error == s.error
      && r.session == s.session.(generatedText := text)
  {
  }

  /** A whole call, from a click that starts it to its settlement: the key
      ends idle, no other key moves, and the error slot is either empty or
      shows that call site's own failure message. */
  lemma {:induction false} CompleteCall(s: State, c: Call, text: string, p: Parsers)
    requires Starts(s, c)
    ensures var r := Step(Step(s, Begin(c)), Settle(c, text, p));
      && !Tracker.IsPending(r.isLoading, Key(c))
      && (forall k :: k != Key(c) ==> Tracker.Agree(s.isLoading, r.isLoading, k))
      && (r.error == None || r.error == FailureOf(c))
      && r.projects == s.projects
  {
    var s1 := Step(s, Begin(c));
    var e := Settle(c, text, p);
    var r := Step(s1, e);
    SettleConcernsItsCall(c, text, p);
    SettleFailureMessage(c, text, p);
    assert s1.error == None;
    forall k | k != Key(c)
      ensures Tracker.Agree(s.isLoading, r.isLoading, k)
    {
      Tracker.AgreeTrans(s.isLoading, s1.isLoading, r.isLoading, k);
    }
  }

  /** End to end: a fenced analysis response fills the analysis slot with
      what the parser makes of the trimmed body between the fences, or, when
      the parser rejects it, leaves the slot alone and shows the analysis
      message. */
  lemma FencedAnalysisShown(s: State, w1: string, body: string, w2: string, p: Parsers)
    requires AllWs(w1) && AllWs(w2)
    requires |body| == 0 || !IsWs(body[0])
    ensures var r := Step(s, Settle(Analyze, OpenFence + w1 + body + Fence + w2, p));
      && (p.analysis(Trim(body)).None? ==>
            r.error == Some(AnalysisFailure) && r.session.analysis == s.session.analysis)
      && (p.analysis(Trim(body)).Some? ==> r.session.analysis == p.analysis(Trim(body)))
  {
    FencedResponse(w1, body, w2);
    AnalysisSettles(s, OpenFence + w1 + body + Fence + w2, p);
  }
}
