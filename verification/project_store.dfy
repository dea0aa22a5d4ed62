/** The project list: a sequence of projects looked up by name, kept in
    memory and mirrored as one serialized blob in the browser's durable
    storage. The user's answers to `prompt` and `confirm`, the clock and the
    outcome of each storage call are parameters. */
module ProjectStore {
  import opened Wrappers
  import opened Types
  import opened AppState

  const SaveFailure: string := "Could not save project. Your browser's storage may be full."
  const LoadFailure: string := "Could not load saved projects. Your browser's storage might be full or corrupted."

  /** No two projects of the list share a name. */
  predicate Unique(ps: seq<Project>)
  {
    forall i, j :: 0 <= i < j < |ps| ==> ps[i].name != ps[j].name
  }

  /** `findIndex(p => p.name === name)`: the first index holding the name. */
  function FindIndex(ps: seq<Project>, name: string): (r: Option<nat>)
    ensures r.Some? ==> r.value < |ps| && ps[r.value].name == name
    ensures r.Some? ==> forall j :: 0 <= j < r.value ==> ps[j].name != name
    ensures r.None? <==> forall j :: 0 <= j < |ps| ==> ps[j].name != name
    decreases |ps|
  {
    if |ps| == 0 then None
    else if ps[0].name == name then Some(0)
    else
      match FindIndex(ps[1..], name)
      case None => None
      case Some(i) => Some(i + 1)
  }

  /** The first index holding a name is the one `FindIndex` returns. */
  lemma FindIndexIsFirst(ps: seq<Project>, name: string, i: nat)
    requires i < |ps| && ps[i].name == name
    requires forall j :: 0 <= j < i ==> ps[j].name != name
    ensures FindIndex(ps, name) == Some(i)
  {
  }

  /** `filter(p => p.name !== name)`: the entries with other names, in
      their original order. */
  function RemoveNamed(ps: seq<Project>, name: string): (r: seq<Project>)
    ensures |r| <= |ps|
    ensures forall p :: p in r <==> p in ps && p.name != name
    decreases |ps|
  {
    if |ps| == 0 then []
    else if ps[0].name == name then RemoveNamed(ps[1..], name)
    else [ps[0]] + RemoveNamed(ps[1..], name)
  }

  /** `updateProjects`: the in-memory list is replaced first, then the
      durable write is attempted; a rejected write only sets the error, and
      the in-memory list is not rolled back. A successful write leaves the
      error slot as it was. */
  function UpdateProjects(s: State, updated: seq<Project>, writeOk: bool): (r: State)
    ensures r.projects == updated
    ensures writeOk ==> r.error == s.error
    ensures !writeOk ==> r.error == Some(SaveFailure)
    ensures r == s.(projects := updated, error := r.error)
  {
    var s1 := s.(projects := updated);
    if writeOk then s1 else s1.(error := Some(SaveFailure))
  }

  /** `handleSaveProject`. `name` is the answer to the prompt (`None` when
      cancelled), `now` the ISO timestamp, `overwrite` the answer to the
      overwrite confirmation (asked only for an existing name), `writeOk`
      the outcome of the durable write. A cancelled or empty name returns
      silently; a declined overwrite changes nothing. */
  function Save(s: State, name: Option<string>, now: string, overwrite: bool, writeOk: bool): (r: State)
    ensures (name.None? || name.value == "") ==> r == s
    ensures r == s.(projects := r.projects, error := r.error)
    ensures r.error != s.error ==> r.error == Some(SaveFailure)
  {
    if name.None? || name.value == "" then s
    else
      var p := Snapshot(name.value, now, s.session);
      match FindIndex(s.projects, name.value)
      case Some(i) =>
        if overwrite then UpdateProjects(s, s.projects[i := p], writeOk) else s
      case None => UpdateProjects(s, s.projects + [p], writeOk)
  }

  /** `handleLoadProject`: the six session fields of the first project with
      the name are copied into the session; an absent name is a silent
      no-op. Nothing but the session changes. */
  function Load(s: State, name: string): (r: State)
    ensures FindIndex(s.projects, name).None? ==> r == s
    ensures FindIndex(s.projects, name).Some? ==>
              r.session == SessionOf(s.projects[FindIndex(s.projects, name).value])
    ensures r == s.(session := r.session)
  {
    match FindIndex(s.projects, name)
    case None => s
    case Some(i) => s.(session := SessionOf(s.projects[i]))
  }

  /** `handleDeleteProject`: after a confirmation, every entry with the name
      is dropped and the list is written back, even if nothing was dropped. */
  function Delete(s: State, name: string, confirmed: bool, writeOk: bool): (r: State)
    ensures !confirmed ==> r == s
    ensures confirmed ==> forall p :: p in r.projects <==> p in s.projects && p.name != name
    ensures r == s.(projects := r.projects, error := r.error)
    ensures r.error != s.error ==> r.error == Some(SaveFailure)
  {
    if confirmed then UpdateProjects(s, RemoveNamed(s.projects, name), writeOk) else s
  }

  /** The mount effect's project load. `read` is the outcome of
      `localStorage.getItem` (an `Err` when it throws), `parse` the abstract
      `JSON.parse` (`None` when it throws). A missing or empty blob leaves
      the list as it is; a failure leaves the list as it is and sets the
      error. */
  function InitialLoad(s: State, read: Result<Option<string>>, parse: string -> Option<seq<Project>>): (r: State)
    ensures r == s.(projects := r.projects, error := r.error)
    ensures read.Err? ==> r.projects == s.projects && r.error == Some(LoadFailure)
    ensures read.Ok? && read.value.Some? && read.value.value != "" ==>
              match parse(read.value.value)
              case None => r.projects == s.projects && r.error == Some(LoadFailure)
              case Some(ps) => r.projects == ps && r.error == s.error
    ensures read.Ok? && (read.value.None? || read.value.value == "") ==> r == s
  {
    match read
    case Err(_) => s.(error := Some(LoadFailure))
    case Ok(None) => s
    case Ok(Some(blob)) =>
      if blob == "" then s
      else
        match parse(blob)
        case None => s.(error := Some(LoadFailure))
        case Some(ps) => s.(projects := ps)
  }

  // ---------------------------------------------------------------------
  // Properties of the operations

  /** On a fresh page, an unreadable blob degrades to an empty list and a
      visible error, never to a crash. */
  lemma MountDegradesToEmpty(supported: bool, blob: string, parse: string -> Option<seq<Project>>)
    requires blob != "" && parse(blob).None?
    ensures InitialLoad(Fresh(supported), Ok(Some(blob)), parse).projects == []
    ensures InitialLoad(Fresh(supported), Ok(Some(blob)), parse).error == Some(LoadFailure)
  {
  }

  /** Saving under a new name appends exactly one project, at the end. */
  lemma SaveNewAppends(s: State, name: string, now: string, overwrite: bool, writeOk: bool)
    requires name != "" && FindIndex(s.projects, name).None?
    ensures var r := Save(s, Some(name), now, overwrite, writeOk);
      && |r.projects| == |s.projects| + 1
      && r.projects[..|s.projects|] == s.projects
      && r.projects[|s.projects|] == Snapshot(name, now, s.session)
  {
  }

  /** Saving under an existing name with the overwrite confirmed replaces
      that entry in place: same length, same index, every other entry and
      its position unchanged. Declining changes nothing. */
  lemma SaveExistingReplaces(s: State, name: string, now: string, overwrite: bool, writeOk: bool)
    requires name != "" && FindIndex(s.projects, name).Some?
    ensures var r := Save(s, Some(name), now, overwrite, writeOk);
      var i := FindIndex(s.projects, name).value;
      && (overwrite ==>
            && |r.projects| == |s.projects|
            && r.projects[i] == Snapshot(name, now, s.session)
            && forall j :: 0 <= j < |s.projects| && j != i ==> r.projects[j] == s.projects[j])
      && (!overwrite ==> r == s)
  {
  }

  /** Every save keeps project names unique. */
  lemma SavePreservesUnique(s: State, name: Option<string>, now: string, overwrite: bool, writeOk: bool)
    requires Unique(s.projects)
    ensures Unique(Save(s, name, now, overwrite, writeOk).projects)
  {
    if name.Some? && name.value != "" {
      var p := Snapshot(name.value, now, s.session);
      match FindIndex(s.projects, name.value)
      case Some(i) =>
        if overwrite {
          ReplaceKeepsUnique(s.projects, i, p);
        }
      case None =>
        AppendKeepsUnique(s.projects, p);
    }
  }

  /** Replacing an entry by one of the same name keeps names unique. */
  lemma ReplaceKeepsUnique(ps: seq<Project>, i: nat, p: Project)
    requires Unique(ps) && i < |ps| && p.name == ps[i].name
    ensures Unique(ps[i := p])
  {
    var r := ps[i := p];
    assert forall j :: 0 <= j < |r| ==> r[j].name == ps[j].name;
  }

  /** Appending a project whose name is new keeps names unique. */
  lemma AppendKeepsUnique(ps: seq<Project>, p: Project)
    requires Unique(ps) && forall j :: 0 <= j < |ps| ==> ps[j].name != p.name
    ensures Unique(ps + [p])
  {
    var r := ps + [p];
    assert forall j :: 0 <= j < |ps| ==> r[j] == ps[j];
  }

  /** Whatever the list held before, a save that goes through is followed
      by a load of the same name that restores all six session fields, into
      any later state whose list is the saved one. */
  lemma SaveThenLoad(s: State, name: string, now: string, overwrite: bool, writeOk: bool, later: State)
    requires name != ""
    requires FindIndex(s.projects, name).None? || overwrite
    requires later.projects == Save(s, Some(name), now, overwrite, writeOk).projects
    ensures FindIndex(later.projects, name).Some?
    ensures Load(later, name).session == s.session
  {
    var p := Snapshot(name, now, s.session);
    match FindIndex(s.projects, name)
    case Some(i) =>
      assert later.projects == s.projects[i := p];
      FindIndexIsFirst(later.projects, name, i);
    case None =>
      assert later.projects == s.projects + [p];
      FindIndexIsFirst(later.projects, name, |s.projects|);
  }

  /** The overwrite scenario: save a session under a name, change the
      session, save again under the same name confirming the overwrite. The
      list then holds exactly one project of that name, carrying the second
      session and the second timestamp. */
  lemma OverwriteKeepsOneEntry(s: State, name: string, t1: string, t2: string, s2: Session, w1: bool, w2: bool)
    requires name != "" && Unique(s.projects)
    ensures var a := Save(s, Some(name), t1, true, w1);
      var b := Save(a.(session := s2), Some(name), t2, true, w2);
      && Unique(b.projects)
      && FindIndex(b.projects, name).Some?
      && b.projects[FindIndex(b.projects, name).value] == Snapshot(name, t2, s2)
  {
    var a := Save(s, Some(name), t1, true, w1);
    SavePreservesUnique(s, Some(name), t1, true, w1);
    var a2 := a.(session := s2);
    SavePreservesUnique(a2, Some(name), t2, true, w2);
    var b := Save(a2, Some(name), t2, true, w2);
    SaveThenLoad(a2, name, t2, true, w2, b);
    SaveThenLoad(s, name, t1, true, w1, a2);
    SaveExistingReplaces(a2, name, t2, true, w2);
  }

  /** Removing a name keeps the relative order of the rest: it distributes
      over concatenation. */
  lemma {:induction false} RemoveNamedAppend(a: seq<Project>, b: seq<Project>, name: string)
    ensures RemoveNamed(a + b, name) == RemoveNamed(a, name) + RemoveNamed(b, name)
    decreases |a|
  {
    if |a| == 0 {
      assert a + b == b;
    } else {
      assert (a + b)[1..] == a[1..] + b;
      RemoveNamedAppend(a[1..], b, name);
    }
  }

  /** Removing an absent name changes nothing. */
  lemma {:induction false} RemoveAbsent(ps: seq<Project>, name: string)
    requires forall j :: 0 <= j < |ps| ==> ps[j].name != name
    ensures RemoveNamed(ps, name) == ps
    decreases |ps|
  {
    if |ps| > 0 {
      RemoveAbsent(ps[1..], name);
      assert [ps[0]] + ps[1..] == ps;
    }
  }

  /** A name absent from a list stays absent once another name is removed. */
  lemma {:induction false} RemoveNamedKeepsAbsent(ps: seq<Project>, name: string, other: string)
    requires forall j :: 0 <= j < |ps| ==> ps[j].name != other
    ensures forall j :: 0 <= j < |RemoveNamed(ps, name)| ==> RemoveNamed(ps, name)[j].name != other
    decreases |ps|
  {
    if |ps| > 0 {
      RemoveNamedKeepsAbsent(ps[1..], name, other);
    }
  }

  /** Putting a project with a new name in front keeps names unique. */
  lemma PrependKeepsUnique(p: Project, ps: seq<Project>)
    requires Unique(ps) && forall j :: 0 <= j < |ps| ==> ps[j].name != p.name
    ensures Unique([p] + ps)
  {
    var r := [p] + ps;
    assert forall j :: 0 < j < |r| ==> r[j] == ps[j - 1];
  }

  /** Removing a name keeps names unique. */
  lemma {:induction false} RemoveNamedUnique(ps: seq<Project>, name: string)
    requires Unique(ps)
    ensures Unique(RemoveNamed(ps, name))
    decreases |ps|
  {
    if |ps| > 0 {
      var tail := ps[1..];
      assert forall j :: 0 <= j < |tail| ==> tail[j] == ps[j + 1];
      RemoveNamedUnique(tail, name);
      if ps[0].name != name {
        RemoveNamedKeepsAbsent(tail, name, ps[0].name);
        PrependKeepsUnique(ps[0], RemoveNamed(tail, name));
      }
    }
  }

  /** Deleting with the confirmation given drops every entry of the name and
      keeps the rest in order; deleting again drops nothing more. */
  lemma DeleteIdempotent(s: State, name: string, w1: bool, w2: bool)
    ensures var once := Delete(s, name, true, w1);
      Delete(once, name, true, w2).projects == once.projects
  {
    var once := Delete(s, name, true, w1);
    RemoveAbsent(once.projects, name);
  }

  /** Deleting a name no project has leaves the list as it is (the list is
      still written back, so a failed write still sets the error). */
  lemma DeleteAbsentKeepsList(s: State, name: string, writeOk: bool)
    requires FindIndex(s.projects, name).None?
    ensures Delete(s, name, true, writeOk).projects == s.projects
  {
    RemoveAbsent(s.projects, name);
  }

  /** Deletion keeps names unique. */
  lemma DeletePreservesUnique(s: State, name: string, confirmed: bool, writeOk: bool)
    requires Unique(s.projects)
    ensures Unique(Delete(s, name, confirmed, writeOk).projects)
  {
    RemoveNamedUnique(s.projects, name);
  }
}
