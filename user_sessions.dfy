/** The per-user session held in memory by the backend (backend/main.py):
    the registered files by id and the active file, as `delete_file` changes
    them and as `/chat` picks its target from them. */
module UserSessions {
  import opened JsonValue
  import opened Http
  import opened Text

  datatype FileInfo = FileInfo(filename: string, path: string, source: string)

  datatype SessionData = SessionData(files: map<string, FileInfo>, activeFileId: Option<string>)

  /** The active file, when there is one, is a registered file. */
  predicate Consistent(s: SessionData)
  {
    s.activeFileId.Some? ==> s.activeFileId.value in s.files
  }

  const DeletedMessage := "File deleted successfully"
  const FileNotFound := "File not found"
  const NoActiveFile := "No active file selected. Please upload a file."

  /** The session and the reply after `delete_file(fileId)`: a registered id
      is removed, and the active file cleared if it was that id; an unknown
      id raises 404, which the catch-all handler re-raises as 500. */
  function AfterDelete(s: SessionData, fileId: string): (SessionData, Outcome<string>)
  {
    if fileId in s.files then
      (SessionData(s.files - {fileId}, if s.activeFileId == Some(fileId) then None else s.activeFileId),
       Ok(DeletedMessage))
    else (s, Error(500, ExceptionText(404, FileNotFound)))
  }

  /** Python truthiness of an optional string. */
  predicate Given(id: Option<string>)
  {
    id.Some? && id.value != ""
  }

  /** The file `/chat` answers about: the requested id if truthy, else the
      active file; refused with 400 unless it is a registered id. */
  function ChatTarget(s: SessionData, requested: Option<string>): (r: Outcome<string>)
    ensures r.Ok? ==> r.value in s.files
    ensures r.Ok? && Given(requested) ==> r.value == requested.value
  {
    var target := if Given(requested) then requested else s.activeFileId;
    if !Given(target) || target.value !in s.files then Error(400, NoActiveFile) else Ok(target.value)
  }

  /** A registered id is removed and nothing else: every other file keeps
      its entry, and the active file is cleared exactly when it was the
      deleted one. */
  lemma DeleteRemovesOnlyThatFile(s: SessionData, fileId: string)
    requires fileId in s.files
    ensures var (t, r) := AfterDelete(s, fileId);
      && r == Ok("File deleted successfully")
      && fileId !in t.files
      && (forall id :: id in s.files && id != fileId ==> id in t.files && t.files[id] == s.files[id])
      && (forall id :: id in t.files ==> id in s.files)
      && (t.activeFileId.None? <==> s.activeFileId.None? || s.activeFileId == Some(fileId))
      && (s.activeFileId != Some(fileId) ==> t.activeFileId == s.activeFileId)
  {
  }

  /** An unknown id changes nothing and is reported as a 500 quoting the 404. */
  lemma DeleteUnknownIsServerError(s: SessionData, fileId: string)
    requires fileId !in s.files
    ensures AfterDelete(s, fileId) == (s, Error(500, "404: " + "File not found"))
  {
    assert NatToString(404) == "404" by {
      assert NatToString(40) == "40";
      assert NatToString(404) == NatToString(40) + [DigitChar(4)];
    }
    assert ExceptionText(404, FileNotFound) == "404: " + "File not found";
  }

  /** Deleting keeps the active file registered. */
  lemma DeleteKeepsConsistent(s: SessionData, fileId: string)
    requires Consistent(s)
    ensures Consistent(AfterDelete(s, fileId).0)
  {
  }

  /** After a delete, `/chat` never answers about the deleted file, whether
      it is asked for by id or was the active one. */
  lemma DeletedFileNotTargeted(s: SessionData, fileId: string, requested: Option<string>)
    ensures ChatTarget(AfterDelete(s, fileId).0, requested) != Ok(fileId)
  {
  }

  /** Without a truthy requested id, a consistent session answers about its
      active file, and is refused when it has none. */
  lemma ActiveFileIsFallback(s: SessionData, requested: Option<string>)
    requires Consistent(s) && !Given(requested)
    ensures Given(s.activeFileId) ==> ChatTarget(s, requested) == Ok(s.activeFileId.value)
    ensures !Given(s.activeFileId) ==> ChatTarget(s, requested) == Error(400, NoActiveFile)
  {
  }

  /** A requested id that is not registered is refused even when an active
      file exists: there is no fallback from a bad id. */
  lemma UnknownRequestRefused(s: SessionData, requested: string)
    requires requested != "" && requested !in s.files
    ensures ChatTarget(s, Some(requested)) == Error(400, NoActiveFile)
  {
  }

  /** The session entry of one user, changed in place by `delete_file`. */
  class UserSession {
    var files: map<string, FileInfo>
    var activeFileId: Option<string>

    function State(): SessionData
      reads this
    {
      SessionData(files, activeFileId)
    }

    /** A new session: no files, no active file. */
    constructor()
      ensures State() == SessionData(map[], None) && Consistent(State())
    {
      files := map[];
      activeFileId := None;
    }

    /** The in-memory part of `delete_file`. */
    method DeleteFile(fileId: string) returns (r: Outcome<string>)
      modifies this
      ensures (State(), r) == AfterDelete(old(State()), fileId)
      ensures old(Consistent(State())) ==> Consistent(State())
    {
      if fileId in files {
        files := files - {fileId};
        if activeFileId == Some(fileId) {
          activeFileId := None;
        }
        return Ok(DeletedMessage);
      } else {
        return Error(500, ExceptionText(404, FileNotFound));
      }
    }
  }
}
