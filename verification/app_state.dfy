/** The state of the single page: the working session, the per-call loading
    flags, the one error slot, the in-memory project list and the state of
    the voice adapter. Every event of the page is a function from `State`
    to `State`, so an interleaving of events is a sequence. */
module AppState {
  import opened Wrappers
  import opened Types

  datatype State = State(
    session: Session,
    isLoading: map<string, bool>,
    error: Option<string>,
    projects: seq<Project>,
    isListening: bool,
    speechSupported: bool)

  /** The state once the mount effect has probed the speech capability,
      before the saved projects are read: empty session, nothing loading, no
      error, no projects, not listening. */
  function Fresh(speechSupported: bool): (s: State)
    ensures s.session == EmptySession && s.projects == [] && s.error == None
    ensures !s.isListening && s.isLoading == map[]
    ensures s.speechSupported == speechSupported
  {
    State(EmptySession, map[], None, [], false, speechSupported)
  }
}
