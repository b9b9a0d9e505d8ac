/**
 * The project and file routes of the REST API (mounted under /api/projects behind
 * `authenticate`). Each handler validates its body, asks one access question, then writes the
 * shared database. `fault == ThrowsAt(n)` makes the handler's n-th awaited store call throw,
 * which every handler turns into a 500 answer.
 */
module ProjectRoutes {
  import opened Wrappers
  import opened Store
  import opened Access
  import Strings

  /** The JSON body fields the routes read (absent fields are None). */
  datatype ProjectInput = ProjectInput(name: Option<string>, description: Option<string>, isPublic: Option<bool>)
  datatype FileInput = FileInput(path: Option<string>, content: Option<string>)

  datatype Payload =
    | ProjectData(project: Project)
    | FileData(file: ProjectFile)
    | FilesData(files: map<string, ProjectFile>)
    | Message(text: string)

  datatype Response = Success(status: int, data: Payload) | Failure(status: int, message: string)

  const ValidationFailed := Failure(400, "Validation failed")
  const NotFoundOrDenied := Failure(404, "Project not found or insufficient permissions")

  /** The validator's `trim()` applied to an optional field. */
  function Trimmed(field: Option<string>): (r: Option<string>)
    ensures r.Some? <==> field.Some?
    ensures r.Some? ==> r.value == Strings.Trim(field.value)
  {
    if field.Some? then Some(Strings.Trim(field.value)) else None
  }

  /** POST /: `name` must be present and non-blank. */
  predicate CreateInputValid(input: ProjectInput) {
    input.name.Some? && Strings.Trim(input.name.value) != ""
  }

  /** PUT /:id: `name` is optional, but when present it must be non-blank. */
  predicate UpdateInputValid(input: ProjectInput) {
    input.name.None? || Strings.Trim(input.name.value) != ""
  }

  /** The file routes: `path` must be present and non-blank. */
  predicate PathValid(input: FileInput) {
    input.path.Some? && Strings.Trim(input.path.value) != ""
  }

  /** The key a validated file body addresses: the trimmed path inside the project. */
  function FileKeyOf(projectId: ProjectId, input: FileInput): (k: FileKey)
    requires input.path.Some?
    ensures k.projectId == projectId && k.path == Strings.Trim(input.path.value)
  {
    FileKey(projectId, Strings.Trim(input.path.value))
  }

  /** The project row `create` writes: trimmed name and description, private unless asked. */
  function NewProject(id: ProjectId, ownerId: UserId, input: ProjectInput, now: Time): (p: Project)
    requires CreateInputValid(input)
    ensures p.id == id && p.ownerId == ownerId && p.collaborations == []
    ensures p.name == Strings.Trim(input.name.value) && p.name != ""
    ensures p.description == Trimmed(input.description)
    ensures p.isPublic == (input.isPublic == Some(true))
    ensures p.createdAt == now && p.updatedAt == now && p.lastModified == now
  {
    Project(id, Strings.Trim(input.name.value), Trimmed(input.description), input.isPublic.GetOr(false),
            ownerId, [], now, now, now)
  }

  /**
   * The partial update of project metadata: `name` only if non-empty, `description` and
   * `isPublic` only if given, `updatedAt` always; identity, owner, collaborators and the other
   * timestamps never change.
   */
  function MergeUpdate(p: Project, input: ProjectInput, now: Time): (r: Project)
    ensures r.id == p.id && r.ownerId == p.ownerId && r.collaborations == p.collaborations
    ensures r.createdAt == p.createdAt && r.lastModified == p.lastModified && r.updatedAt == now
    ensures r.name == if input.name.Some? && Strings.Trim(input.name.value) != "" then Strings.Trim(input.name.value) else p.name
    ensures r.description == if input.description.Some? then Trimmed(input.description) else p.description
    ensures r.isPublic == if input.isPublic.Some? then input.isPublic.value else p.isPublic
  {
    var name := Trimmed(input.name);
    p.(name := if name.Some? && name.value != "" then name.value else p.name,
       description := if input.description.Some? then Trimmed(input.description) else p.description,
       isPublic := input.isPublic.GetOr(p.isPublic),
       updatedAt := now)
  }

  /** An update with an empty body only refreshes `updatedAt`. */
  lemma MergeEmptyBody(p: Project, now: Time)
    ensures MergeUpdate(p, ProjectInput(None, None, None), now) == p.(updatedAt := now)
  {
  }

  /** Applying the same update twice is applying it once. */
  lemma MergeIdempotent(p: Project, input: ProjectInput, now: Time)
    ensures MergeUpdate(MergeUpdate(p, input, now), input, now) == MergeUpdate(p, input, now)
  {
    Strings.TrimIdempotent(input.name.GetOr(""));
    Strings.TrimIdempotent(input.description.GetOr(""));
  }

  /** The file rows of one project, by path (the route orders them by path; order is not modelled). */
  function FilesOf(files: map<FileKey, ProjectFile>, projectId: ProjectId): (r: map<string, ProjectFile>)
    ensures forall path :: path in r <==> FileKey(projectId, path) in files
    ensures forall path :: path in r ==> r[path] == files[FileKey(projectId, path)]
  {
    map path | path in (set k | k in files && k.projectId == projectId :: k.path) :: files[FileKey(projectId, path)]
  }

  /** The tables without a project: its row, its file rows and its cursor rows go. */
  function WithoutProject(t: Tables, projectId: ProjectId): (r: Tables)
    ensures r.projects == t.projects - {projectId}
    ensures forall k :: k in r.files <==> k in t.files && k.projectId != projectId
    ensures forall k :: k in r.files ==> r.files[k] == t.files[k]
    ensures forall k :: k in r.cursors <==> k in t.cursors && k.projectId != projectId
    ensures forall k :: k in r.cursors ==> r.cursors[k] == t.cursors[k]
    ensures r.users == t.users && r.chat == t.chat
  {
    t.(projects := t.projects - {projectId},
       files := map k | k in t.files && k.projectId != projectId :: t.files[k],
       cursors := map k | k in t.cursors && k.projectId != projectId :: t.cursors[k])
  }

  /** Adding a project without collaborators, together with its README row, keeps the tables consistent. */
  lemma AddProjectConsistent(t: Tables, p: Project, readme: ProjectFile)
    requires Consistent(t) && p.id !in t.projects && p.collaborations == [] && readme.path == "README.md"
    ensures Consistent(t.(projects := t.projects[p.id := p], files := t.files[FileKey(p.id, "README.md") := readme]))
  {
  }

  class ProjectRouter {
    const db: Database

    constructor (db: Database)
      ensures this.db == db
    {
      this.db := db;
    }

    /** GET /:id: the project, for its owner and its collaborators only. */
    method GetProject(userId: UserId, projectId: ProjectId, fault: StoreFault) returns (resp: Response)
      ensures fault == ThrowsAt(1) ==> resp == Failure(500, "Failed to fetch project")
      ensures fault != ThrowsAt(1) && !CanRead(db.tables.projects, projectId, userId) ==> resp == Failure(404, "Project not found")
      ensures fault != ThrowsAt(1) && CanRead(db.tables.projects, projectId, userId)
        ==> resp == Success(200, ProjectData(db.tables.projects[projectId]))
    {
      if fault == ThrowsAt(1) {
        return Failure(500, "Failed to fetch project");
      }
      if !CanRead(db.tables.projects, projectId, userId) {
        return Failure(404, "Project not found");
      }
      resp := Success(200, ProjectData(db.tables.projects[projectId]));
    }

    /** GET /:id/files: the project's file rows, for readers only. */
    method GetFiles(userId: UserId, projectId: ProjectId, fault: StoreFault) returns (resp: Response)
      ensures fault == ThrowsAt(1) ==> resp == Failure(500, "Failed to fetch project files")
      ensures fault != ThrowsAt(1) ==>
        resp == if !CanRead(db.tables.projects, projectId, userId) then Failure(404, "Project not found")
                else if fault == ThrowsAt(2) then Failure(500, "Failed to fetch project files")
                else Success(200, FilesData(FilesOf(db.tables.files, projectId)))
    {
      if fault == ThrowsAt(1) {
        return Failure(500, "Failed to fetch project files");
      }
      if !CanRead(db.tables.projects, projectId, userId) {
        return Failure(404, "Project not found");
      }
      if fault == ThrowsAt(2) {
        return Failure(500, "Failed to fetch project files");
      }
      resp := Success(200, FilesData(FilesOf(db.tables.files, projectId)));
    }

    /** POST /: a new private-by-default project owned by the caller, seeded with one README. */
    method CreateProject(userId: UserId, input: ProjectInput, newId: ProjectId, now: Time, fault: StoreFault)
      returns (resp: Response)
      requires db.Valid()
      requires newId !in db.tables.projects
      modifies db
      ensures db.Valid()
      ensures !CreateInputValid(input) ==> resp == ValidationFailed && db.tables == old(db.tables)
      ensures CreateInputValid(input) && fault == ThrowsAt(1)
        ==> resp == Failure(500, "Failed to create project") && db.tables == old(db.tables)
      ensures CreateInputValid(input) && fault != ThrowsAt(1) ==>
        var p := NewProject(newId, userId, input, now);
        && db.tables == old(db.tables).(
             projects := old(db.tables).projects[newId := p],
             files := old(db.tables).files[FileKey(newId, "README.md") := SeedReadme(p.name, p.description, now)])
        && resp == Success(201, ProjectData(p))
    {
      if !CreateInputValid(input) {
        return ValidationFailed;
      }
      if fault == ThrowsAt(1) {
        return Failure(500, "Failed to create project");
      }
      var p := NewProject(newId, userId, input, now);
      var t := db.tables;
      AddProjectConsistent(t, p, SeedReadme(p.name, p.description, now));
      db.tables := t.(projects := t.projects[newId := p],
                      files := t.files[FileKey(newId, "README.md") := SeedReadme(p.name, p.description, now)]);
      resp := Success(201, ProjectData(p));
    }

    /** PUT /:id: metadata update for writers; 400 before any lookup, 404 on denial. */
    method UpdateProject(userId: UserId, projectId: ProjectId, input: ProjectInput, now: Time, fault: StoreFault)
      returns (resp: Response)
      requires db.Valid()
      modifies db
      ensures db.Valid()
      ensures !UpdateInputValid(input) ==> resp == ValidationFailed && db.tables == old(db.tables)
      ensures UpdateInputValid(input) ==>
        var t := old(db.tables);
        if fault == ThrowsAt(1) then resp == Failure(500, "Failed to update project") && db.tables == t
        else if !CanWrite(t.projects, projectId, userId) then resp == NotFoundOrDenied && db.tables == t
        else if fault == ThrowsAt(2) then resp == Failure(500, "Failed to update project") && db.tables == t
        else
          && db.tables == t.(projects := t.projects[projectId := MergeUpdate(t.projects[projectId], input, now)])
          && resp == Success(200, ProjectData(db.tables.projects[projectId]))
    {
      if !UpdateInputValid(input) {
        return ValidationFailed;
      }
      if fault == ThrowsAt(1) {
        return Failure(500, "Failed to update project");
      }
      if !CanWrite(db.tables.projects, projectId, userId) {
        return NotFoundOrDenied;
      }
      if fault == ThrowsAt(2) {
        return Failure(500, "Failed to update project");
      }
      var t := db.tables;
      var p := MergeUpdate(t.projects[projectId], input, now);
      db.tables := t.(projects := t.projects[projectId := p]);
      resp := Success(200, ProjectData(p));
    }

    /** DELETE /:id: only the owner may delete; a collaborator with role OWNER may not. */
    method DeleteProject(userId: UserId, projectId: ProjectId, fault: StoreFault) returns (resp: Response)
      requires db.Valid()
      modifies db
      ensures db.Valid()
      ensures var t := old(db.tables);
        if fault == ThrowsAt(1) then resp == Failure(500, "Failed to delete project") && db.tables == t
        else if !IsOwner(t.projects, projectId, userId) then resp == NotFoundOrDenied && db.tables == t
        else if fault == ThrowsAt(2) then resp == Failure(500, "Failed to delete project") && db.tables == t
        else db.tables == WithoutProject(t, projectId) && resp == Success(200, Message("Project deleted successfully"))
    {
      if fault == ThrowsAt(1) {
        return Failure(500, "Failed to delete project");
      }
      if !IsOwner(db.tables.projects, projectId, userId) {
        return NotFoundOrDenied;
      }
      if fault == ThrowsAt(2) {
        return Failure(500, "Failed to delete project");
      }
      db.tables := WithoutProject(db.tables, projectId);
      resp := Success(200, Message("Project deleted successfully"));
    }

    /**
     * PUT /:id/files: upsert the file by (project, trimmed path), then touch the project's
     * lastModified. When that touch throws the file write stays and the caller gets a 500.
     */
    method PutFile(userId: UserId, projectId: ProjectId, input: FileInput, now: Time, fault: StoreFault)
      returns (resp: Response)
      requires db.Valid()
      modifies db
      ensures db.Valid()
      ensures !(PathValid(input) && input.content.Some?) ==> resp == ValidationFailed && db.tables == old(db.tables)
      ensures PathValid(input) && input.content.Some? ==>
        var t := old(db.tables);
        var key := FileKeyOf(projectId, input);
        if fault == ThrowsAt(1) then resp == Failure(500, "Failed to update file") && db.tables == t
        else if !CanWrite(t.projects, projectId, userId) then resp == NotFoundOrDenied && db.tables == t
        else if fault == ThrowsAt(2) then resp == Failure(500, "Failed to update file") && db.tables == t
        else if fault == ThrowsAt(3) then
          && db.tables == t.(files := Upsert(t.files, key, input.content.value, now))
          && resp == Failure(500, "Failed to update file")
        else
          && db.tables == t.(files := Upsert(t.files, key, input.content.value, now),
                             projects := t.projects[projectId := t.projects[projectId].(lastModified := now)])
          && resp == Success(200, FileData(db.tables.files[key]))
    {
      if !(PathValid(input) && input.content.Some?) {
        return ValidationFailed;
      }
      if fault == ThrowsAt(1) {
        return Failure(500, "Failed to update file");
      }
      if !CanWrite(db.tables.projects, projectId, userId) {
        return NotFoundOrDenied;
      }
      if fault == ThrowsAt(2) {
        return Failure(500, "Failed to update file");
      }
      var key := FileKeyOf(projectId, input);
      var t := db.tables;
      UpsertConsistent(t, key, input.content.value, now);
      db.tables := t.(files := Upsert(t.files, key, input.content.value, now));
      if fault == ThrowsAt(3) {
        return Failure(500, "Failed to update file");
      }
      var t2 := db.tables;
      TouchConsistent(t2, projectId, now);
      db.tables := t2.(projects := t2.projects[projectId := t2.projects[projectId].(lastModified := now)]);
      resp := Success(200, FileData(db.tables.files[key]));
    }

    /**
     * POST /:id/files: create a new file (content defaults to ''); an existing (project, path)
     * violates the unique key and is answered 500. The project's lastModified is not touched.
     */
    method PostFile(userId: UserId, projectId: ProjectId, input: FileInput, now: Time, fault: StoreFault)
      returns (resp: Response)
      requires db.Valid()
      modifies db
      ensures db.Valid()
      ensures !PathValid(input) ==> resp == ValidationFailed && db.tables == old(db.tables)
      ensures PathValid(input) ==>
        var t := old(db.tables);
        var key := FileKeyOf(projectId, input);
        if fault == ThrowsAt(1) then resp == Failure(500, "Failed to create file") && db.tables == t
        else if !CanWrite(t.projects, projectId, userId) then resp == NotFoundOrDenied && db.tables == t
        else if fault == ThrowsAt(2) || key in t.files then resp == Failure(500, "Failed to create file") && db.tables == t
        else
          && db.tables == t.(files := t.files[key := NewFileRow(key.path, input.content.GetOr(""), now)])
          && resp == Success(201, FileData(db.tables.files[key]))
    {
      if !PathValid(input) {
        return ValidationFailed;
      }
      if fault == ThrowsAt(1) {
        return Failure(500, "Failed to create file");
      }
      if !CanWrite(db.tables.projects, projectId, userId) {
        return NotFoundOrDenied;
      }
      var key := FileKeyOf(projectId, input);
      if fault == ThrowsAt(2) || key in db.tables.files {
        return Failure(500, "Failed to create file");
      }
      var row := NewFileRow(key.path, input.content.GetOr(""), now);
      db.tables := db.tables.(files := db.tables.files[key := row]);
      resp := Success(201, FileData(row));
    }

    /** DELETE /:id/files: remove the row of (project, path) if any; success either way. */
    method DeleteFile(userId: UserId, projectId: ProjectId, input: FileInput, fault: StoreFault)
      returns (resp: Response)
      requires db.Valid()
      modifies db
      ensures db.Valid()
      ensures !PathValid(input) ==> resp == ValidationFailed && db.tables == old(db.tables)
      ensures PathValid(input) ==>
        var t := old(db.tables);
        if fault == ThrowsAt(1) then resp == Failure(500, "Failed to delete file") && db.tables == t
        else if !CanWrite(t.projects, projectId, userId) then resp == NotFoundOrDenied && db.tables == t
        else if fault == ThrowsAt(2) then resp == Failure(500, "Failed to delete file") && db.tables == t
        else
          && db.tables == t.(files := t.files - {FileKeyOf(projectId, input)})
          && resp == Success(200, Message("File deleted successfully"))
    {
      if !PathValid(input) {
        return ValidationFailed;
      }
      if fault == ThrowsAt(1) {
        return Failure(500, "Failed to delete file");
      }
      if !CanWrite(db.tables.projects, projectId, userId) {
        return NotFoundOrDenied;
      }
      if fault == ThrowsAt(2) {
        return Failure(500, "Failed to delete file");
      }
      db.tables := db.tables.(files := db.tables.files - {FileKeyOf(projectId, input)});
      resp := Success(200, Message("File deleted successfully"));
    }
  }
}
