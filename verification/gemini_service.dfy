/** The response handling of the generation service: the raw response text
    has its Markdown code fences stripped and is trimmed before being handed
    to the JSON parser, and each structured operation turns a failed parse
    into an `Error` with a fixed message. The network exchange itself is not
    modelled: each operation receives the response text as a parameter. */
module GeminiService {
  import opened Wrappers
  import opened Types
  import opened JsText

  /** The opening fence `^```json` of the cleanup pattern. */
  const OpenFence: string := "```json"
  /** The closing fence of the cleanup pattern. */
  const Fence: string := "```"

  /** Failure messages of the four validating operations. */
  const AnalysisFailure: string := "Failed to get a valid analysis from the API."
  const TropesFailure: string := "Failed to get a valid trope list from the API."
  const TwistsFailure: string := "Failed to get a valid twist from the API."
  const RiskFailure: string := "Failed to get a valid risk assessment from the API."

  predicate StartsWithOpenFence(t: string)
  {
    |t| >= |OpenFence| && t[..|OpenFence|] == OpenFence
  }

  /** The first alternative of the pattern, `^```json\s*`, removed: it can only
      match at offset 0, and `\s*` takes the whole run of white space. */
  function AfterOpenFence(t: string): (u: string)
    ensures |u| <= |t| && u == t[|t| - |u|..]
    ensures StartsWithOpenFence(t) ==>
              |u| <= |t| - |OpenFence| && AllWs(t[|OpenFence|..|t| - |u|])
              && (|u| == 0 || !IsWs(u[0]))
    ensures !StartsWithOpenFence(t) ==> u == t
  {
    if StartsWithOpenFence(t) then
      var rest := t[|OpenFence|..];
      var u := TrimStart(rest);
      assert rest[..|rest| - |u|] == t[|OpenFence|..|t| - |u|];
      u
    else t
  }

  /** The second alternative of the pattern, `` ```\s*$ ``, matches at offset
      `i` of `u`: a fence followed only by white space up to the end. */
  predicate FenceAt(u: string, i: int)
  {
    0 <= i && i + |Fence| <= |u| && u[i..i + |Fence|] == Fence && AllWs(u[i + |Fence|..])
  }

  /** The global scan for the closing fence, from offset `i` onwards: the
      first offset where it matches is cut off together with the rest. */
  function DropClosingFenceFrom(u: string, i: nat): (r: string)
    requires i <= |u|
    decreases |u| - i
    ensures |r| <= |u| && r == u[..|r|]
    ensures |r| < |u| ==> i <= |r| && FenceAt(u, |r|)
    ensures |r| == |u| ==> forall j :: i <= j <= |u| ==> !FenceAt(u, j)
  {
    if i + |Fence| > |u| then u
    else if FenceAt(u, i) then u[..i]
    else DropClosingFenceFrom(u, i + 1)
  }

  /** The closing fence removed from the whole of `u`. */
  function DropClosingFence(u: string): (r: string)
    ensures |r| <= |u| && r == u[..|r|]
    ensures |r| < |u| ==> FenceAt(u, |r|)
    ensures |r| == |u| ==> forall j :: 0 <= j <= |u| ==> !FenceAt(u, j)
  {
    DropClosingFenceFrom(u, 0)
  }

  /** `text.replace(/^```json\s*|```\s*$/g, '')`: the scan resumes after an
      opening-fence match, so the closing fence is looked for in what is
      left. The result is a contiguous piece of the text. */
  function StripFences(text: string): (r: string)
    ensures r <= AfterOpenFence(text)
    ensures |r| < |AfterOpenFence(text)| ==> FenceAt(AfterOpenFence(text), |r|)
    ensures |r| == |AfterOpenFence(text)| ==>
              forall j :: 0 <= j <= |r| ==> !FenceAt(AfterOpenFence(text), j)
  {
    DropClosingFence(AfterOpenFence(text))
  }

  /** The text handed to `JSON.parse`: fences stripped, then trimmed. */
  function Clean(text: string): (r: string)
    ensures Trimmed(r)
  {
    Trim(StripFences(text))
  }

  /** The cleaned text sits inside the stripped text with only white space
      around it: trimming removes nothing but surrounding white space. */
  lemma CleanTrimsStripped(text: string)
    ensures exists a :: TrimsTo(StripFences(text), a, Clean(text))
  {
    assert Clean(text) == Trim(StripFences(text));
  }

  /** `parseJsonResponse`: the abstract parser applied to the cleaned text.
      `None` stands for a parse that threw, which is caught here, as well as
      for a parse to a falsy value; every caller rejects both alike. */
  function ParseJsonResponse<T>(text: string, parse: string -> Option<T>): Option<T>
  {
    parse(Clean(text))
  }

  /** `analyzeIP`: fails exactly when the parse yields nothing, with its own
      message; otherwise the parsed value is returned as it is, its fields
      unchecked. */
  function AnalyzeIP(response: string, parse: string -> Option<AnalysisResult>): (r: Result<AnalysisResult>)
    ensures r.Err? <==> ParseJsonResponse(response, parse).None?
    ensures r.Err? ==> r.message == AnalysisFailure
    ensures r.Ok? ==> ParseJsonResponse(response, parse) == Some(r.value)
  {
    match ParseJsonResponse(response, parse)
    case None => Err(AnalysisFailure)
    case Some(v) => Ok(v)
  }

  /** The object `exploreTropes` expects; `tropes` is `None` when the field
      is missing or falsy. An empty array is truthy and is `Some([])`. */
  datatype TropesPayload = TropesPayload(tropes: Option<seq<string>>)

  /** `exploreTropes`: fails when the parse yields nothing or lacks a
      `tropes` field; otherwise returns only that array. */
  function ExploreTropes(response: string, parse: string -> Option<TropesPayload>): (r: Result<seq<string>>)
    ensures r.Err? <==> (ParseJsonResponse(response, parse).None?
                         || ParseJsonResponse(response, parse).value.tropes.None?)
    ensures r.Err? ==> r.message == TropesFailure
    ensures r.Ok? ==> ParseJsonResponse(response, parse) == Some(TropesPayload(Some(r.value)))
  {
    match ParseJsonResponse(response, parse)
    case None => Err(TropesFailure)
    case Some(payload) =>
      match payload.tropes
      case None => Err(TropesFailure)
      case Some(ts) => Ok(ts)
  }

  /** `generateTwists`: fails exactly when the parse yields nothing. */
  function GenerateTwists(response: string, parse: string -> Option<TwistResult>): (r: Result<TwistResult>)
    ensures r.Err? <==> ParseJsonResponse(response, parse).None?
    ensures r.Err? ==> r.message == TwistsFailure
    ensures r.Ok? ==> ParseJsonResponse(response, parse) == Some(r.value)
  {
    match ParseJsonResponse(response, parse)
    case None => Err(TwistsFailure)
    case Some(v) => Ok(v)
  }

  /** `assessRisk`: fails exactly when the parse yields nothing. */
  function AssessRisk(response: string, parse: string -> Option<RiskResult>): (r: Result<RiskResult>)
    ensures r.Err? <==> ParseJsonResponse(response, parse).None?
    ensures r.Err? ==> r.message == RiskFailure
    ensures r.Ok? ==> ParseJsonResponse(response, parse) == Some(r.value)
  {
    match ParseJsonResponse(response, parse)
    case None => Err(RiskFailure)
    case Some(v) => Ok(v)
  }

  /** `generateNarrative`: never fails, and the response text is neither
      cleaned nor validated. */
  function GenerateNarrative(response: string): (r: Result<string>)
    ensures r.Ok? && r.value == response
  {
    Ok(response)
  }

  /** End to end: a fenced analysis response is judged by what the parser
      makes of its trimmed body. */
  lemma FencedAnalysis(w1: string, body: string, w2: string, parse: string -> Option<AnalysisResult>)
    requires AllWs(w1) && AllWs(w2)
    requires |body| == 0 || !IsWs(body[0])
    ensures AnalyzeIP(OpenFence + w1 + body + Fence + w2, parse).Err? <==> parse(Trim(body)).None?
  {
    FencedResponse(w1, body, w2);
  }

  /** The closing-fence pattern matches at one offset at most. */
  lemma FenceAtUnique(u: string, i: int, j: int)
    requires FenceAt(u, i) && FenceAt(u, j)
    ensures i == j
  {
    if i < j {
      NoFenceAfter(u, i, j);
    } else if j < i {
      NoFenceAfter(u, j, i);
    }
  }

  /** Once the closing fence matches at `i`, the text after it is white
      space, so no later offset starts another fence. */
  lemma NoFenceAfter(u: string, i: int, j: int)
    requires FenceAt(u, i) && i < j
    ensures !FenceAt(u, j)
  {
    if j + |Fence| <= |u| {
      assert IsWs(u[j + 2]) by {
        assert u[i + |Fence|..][j + 2 - i - |Fence|] == u[j + 2];
      }
    }
  }

  /** A leading "```json" and all the white space after it are removed. */
  lemma OpenFenceRemoved(w: string, body: string)
    requires AllWs(w)
    requires |body| == 0 || !IsWs(body[0])
    ensures AfterOpenFence(OpenFence + w + body) == body
  {
    var t := OpenFence + w + body;
    assert t[..|OpenFence|] == OpenFence;
    assert t[|OpenFence|..] == w + body;
    TrimStartPadding(w, body);
  }

  /** A "```" followed only by white space up to the end is removed, and
      nothing before it. */
  lemma ClosingFenceRemoved(body: string, w: string)
    requires AllWs(w)
    ensures DropClosingFence(body + Fence + w) == body
  {
    var u := body + Fence + w;
    assert u[|body|..|body| + |Fence|] == Fence;
    assert u[|body| + |Fence|..] == w;
    assert FenceAt(u, |body|);
    var r := DropClosingFence(u);
    FenceAtUnique(u, |r|, |body|);
    assert r == u[..|body|];
  }

  /** A response wrapped in a "```json" fence yields exactly the body
      between the fences, and the parser sees the trimmed body. */
  lemma FencedResponse(w1: string, body: string, w2: string)
    requires AllWs(w1) && AllWs(w2)
    requires |body| == 0 || !IsWs(body[0])
    ensures StripFences(OpenFence + w1 + body + Fence + w2) == body
    ensures Clean(OpenFence + w1 + body + Fence + w2) == Trim(body)
  {
    var t := OpenFence + w1 + body + Fence + w2;
    assert t == OpenFence + w1 + (body + Fence + w2);
    var rest := body + Fence + w2;
    assert |rest| == 0 || !IsWs(rest[0]) by {
      if |body| == 0 {
        assert rest[0] == '`';
      } else {
        assert rest[0] == body[0];
      }
    }
    OpenFenceRemoved(w1, rest);
    ClosingFenceRemoved(body, w2);
  }

  /** A response with neither fence is only trimmed. */
  lemma UnfencedResponse(text: string)
    requires !StartsWithOpenFence(text)
    requires forall i :: 0 <= i <= |text| ==> !FenceAt(text, i)
    ensures StripFences(text) == text
    ensures Clean(text) == Trim(text)
  {
  }

  /** White space around a fenced response does not reach the parser. */
  lemma CleanIgnoresTrailingSpace(body: string, w: string)
    requires AllWs(w)
    requires !StartsWithOpenFence(body + Fence + w)
    ensures Clean(body + Fence + w) == Trim(body)
  {
    ClosingFenceRemoved(body, w);
  }
}
