/** The records of the application: the three structured answers of the
    generation service, the current working session, and a saved project.
    Nullable fields of the source are `Option`s; arrays are sequences. */
module Types {
  import opened Wrappers

  /** The answer to an "analyze" request: exactly four text fields. */
  datatype AnalysisResult = AnalysisResult(
    characteristics: string,
    tropes: string,
    motifs: string,
    copyrightableElements: string)

  /** The answer to a "twists" request: exactly four text fields. */
  datatype TwistResult = TwistResult(
    conceptualBlending: string,
    dimensionalThinking: string,
    multiPerspective: string,
    coreInversion: string)

  /** The three admissible risk scores; no other value is representable. */
  datatype RiskScore = Low | Medium | High

  /** The answer to a risk assessment. */
  datatype RiskResult = RiskResult(
    riskScore: RiskScore,
    explanation: string,
    similarPassages: seq<string>)

  /** The six fields of the working session that a project snapshot keeps.
      The input and the narrative are always present; each structured result
      may independently be absent. */
  datatype Session = Session(
    ipInput: string,
    generatedText: string,
    analysis: Option<AnalysisResult>,
    twists: Option<TwistResult>,
    tropes: Option<seq<string>>,
    risk: Option<RiskResult>)

  /** The session a freshly opened page starts from: empty texts, no results. */
  const EmptySession := Session("", "", None, None, None, None)

  /** A saved project: a name, the time of its last save (an ISO string
      supplied by the caller) and a flat copy of the six session fields. */
  datatype Project = Project(
    name: string,
    lastSaved: string,
    ipInput: string,
    generatedText: string,
    analysis: Option<AnalysisResult>,
    twists: Option<TwistResult>,
    tropes: Option<seq<string>>,
    risk: Option<RiskResult>)

  /** The session fields stored in a project. */
  function SessionOf(p: Project): Session
  {
    Session(p.ipInput, p.generatedText, p.analysis, p.twists, p.tropes, p.risk)
  }

  /** The project literal built when the current session is saved. */
  function Snapshot(name: string, lastSaved: string, s: Session): (p: Project)
    ensures p.name == name && p.lastSaved == lastSaved
    ensures SessionOf(p) == s
  {
    Project(name, lastSaved, s.ipInput, s.generatedText, s.analysis, s.twists, s.tropes, s.risk)
  }

  /** A project is determined by its name, its timestamp and its session. */
  lemma SnapshotOfSessionOf(p: Project)
    ensures Snapshot(p.name, p.lastSaved, SessionOf(p)) == p
  {
  }
}
