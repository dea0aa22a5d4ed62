/** The whole page as one event system: the call orchestrator's events, the
    voice adapter's events, the project handlers and the two text areas'
    `onChange` edits, interleaved in any order. */
module Page {
  import opened Wrappers
  import opened Types
  import opened AppState
  import Orchestrator
  import Voice
  import ProjectStore

  datatype PageEvent =
    | CallEvent(call: Orchestrator.Event)
    | VoiceEvent(voice: Voice.VoiceEvent)
    | SaveProject(name: Option<string>, now: string, overwrite: bool, writeOk: bool)
    | LoadProject(projectName: string)
    | DeleteProject(projectName: string, confirmed: bool, writeOk: bool)
    | EditInput(text: string)
    | EditNarrative(text: string)

  function PageStep(s: State, e: PageEvent): State
  {
    match e
    case CallEvent(c) => Orchestrator.Step(s, c)
    case VoiceEvent(v) => Voice.VoiceStep(s, v)
    case SaveProject(name, now, overwrite, writeOk) => ProjectStore.Save(s, name, now, overwrite, writeOk)
    case LoadProject(name) => ProjectStore.Load(s, name)
    case DeleteProject(name, confirmed, writeOk) => ProjectStore.Delete(s, name, confirmed, writeOk)
    case EditInput(text) => s.(session := s.session.(ipInput := text))
    case EditNarrative(text) => s.(session := s.session.(generatedText := text))
  }

  function PageRun(s: State, events: seq<PageEvent>): State
    decreases |events|
  {
    if |events| == 0 then s
    else PageStep(PageRun(s, events[..|events| - 1]), events[|events| - 1])
  }

  /** The invariants every page event keeps: project names are unique, and
      the adapter never listens without the capability. */
  predicate Invariant(s: State)
  {
    ProjectStore.Unique(s.projects) && Voice.NeverListensUnsupported(s)
  }

  /** One event keeps the invariants and the capability flag. */
  lemma PageStepKeepsInvariant(s: State, e: PageEvent)
    requires Invariant(s)
    ensures Invariant(PageStep(s, e))
    ensures PageStep(s, e).speechSupported == s.speechSupported
  {
    match e
    case CallEvent(c) =>
    case VoiceEvent(v) =>
      Voice.VoiceRunKeepsSupportInvariant(s, [v]);
      assert [v][..0] == [];
    case SaveProject(name, now, overwrite, writeOk) =>
      ProjectStore.SavePreservesUnique(s, name, now, overwrite, writeOk);
    case LoadProject(name) =>
    case DeleteProject(name, confirmed, writeOk) =>
      ProjectStore.DeletePreservesUnique(s, name, confirmed, writeOk);
    case EditInput(text) =>
    case EditNarrative(text) =>
  }

  /** Any interleaving of page events keeps the invariants. */
  lemma {:induction false} PageRunKeepsInvariant(s: State, events: seq<PageEvent>)
    requires Invariant(s)
    ensures Invariant(PageRun(s, events))
    decreases |events|
  {
    if |events| > 0 {
      PageRunKeepsInvariant(s, events[..|events| - 1]);
      PageStepKeepsInvariant(PageRun(s, events[..|events| - 1]), events[|events| - 1]);
    }
  }

  /** The page after mounting satisfies the invariants when the stored list
      has unique names or could not be read. */
  lemma MountedInvariant(supported: bool, read: Result<Option<string>>, parse: string -> Option<seq<Project>>)
    requires read.Ok? && read.value.Some? && read.value.value != "" && parse(read.value.value).Some?
             ==> ProjectStore.Unique(parse(read.value.value).value)
    ensures Invariant(ProjectStore.InitialLoad(Fresh(supported), read, parse))
  {
  }
}
