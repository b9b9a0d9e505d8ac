/**
 * The persisted tables the backend reads and writes through Prisma, keyed by the unique keys
 * the code uses: projects by id, files by (projectId, path), cursors by (userId, projectId,
 * filePath). The query engine itself is not modelled: a table is a map, and a store call that
 * throws is chosen by the caller through `StoreFault`.
 */
module Store {
  import opened Wrappers
  import Strings
  import Languages

  type UserId = string
  type ProjectId = string

  /** A timestamp the caller supplies (`new Date()`); the model never reads a clock. */
  type Time = int

  /** The collaboration-role enum of the database (stored as 'OWNER', 'EDITOR', 'VIEWER'). */
  datatype Role = Owner | Editor | Viewer

  /** The text the database stores and the socket service sends for a role. */
  function RoleName(role: Role): (r: string)
    ensures r in {"OWNER", "EDITOR", "VIEWER"}
    ensures r == "OWNER" <==> role == Owner
    ensures r == "EDITOR" <==> role == Editor
    ensures r == "VIEWER" <==> role == Viewer
  {
    match role
    case Owner => "OWNER"
    case Editor => "EDITOR"
    case Viewer => "VIEWER"
  }

  /** A user row; `role` is the account role `authorize` compares (e.g. "USER", "ADMIN"). */
  datatype User = User(id: UserId, name: string, email: string, avatar: Option<string>, role: string)

  /** A collaboration row of a project: (projectId, userId) -> role. */
  datatype Collaboration = Collaboration(userId: UserId, role: Role)

  datatype Project = Project(
    id: ProjectId,
    name: string,
    description: Option<string>,
    isPublic: bool,
    ownerId: UserId,
    collaborations: seq<Collaboration>,
    createdAt: Time,
    updatedAt: Time,
    lastModified: Time)

  datatype FileKey = FileKey(projectId: ProjectId, path: string)

  datatype ProjectFile = ProjectFile(
    name: string,
    path: string,
    content: string,
    language: string,
    size: int,
    isDirectory: bool,
    createdAt: Time,
    updatedAt: Time)

  datatype CursorKey = CursorKey(userId: UserId, projectId: ProjectId, filePath: string)

  datatype CursorRow = CursorRow(line: int, column: int, updatedAt: Time)

  /** A chat row; `id` is assigned by the store, `kind` is the row's `type` ('MESSAGE'). */
  datatype ChatRow = ChatRow(
    id: string,
    userId: UserId,
    projectId: ProjectId,
    message: string,
    kind: string,
    createdAt: Time)

  datatype Tables = Tables(
    users: map<UserId, User>,
    projects: map<ProjectId, Project>,
    files: map<FileKey, ProjectFile>,
    cursors: map<CursorKey, CursorRow>,
    chat: seq<ChatRow>)

  /** `ThrowsAt(n)`: the n-th awaited store call of the handler throws; `NoFault`: none does. */
  datatype StoreFault = NoFault | ThrowsAt(call: nat)

  /**
   * What the database's constraints keep true: a file row sits under its own path and
   * belongs to an existing project, chat ids are distinct, collaborators are users.
   */
  ghost predicate Consistent(t: Tables) {
    && (forall k :: k in t.files ==> t.files[k].path == k.path && k.projectId in t.projects)
    && (forall i, j :: 0 <= i < j < |t.chat| ==> t.chat[i].id != t.chat[j].id)
    && (forall pid, i :: pid in t.projects && 0 <= i < |t.projects[pid].collaborations|
          ==> t.projects[pid].collaborations[i].userId in t.users)
  }

  /** The chat ids already used. */
  function ChatIds(chat: seq<ChatRow>): (ids: set<string>)
    ensures forall i :: 0 <= i < |chat| ==> chat[i].id in ids
    ensures forall id :: id in ids ==> exists i :: 0 <= i < |chat| && chat[i].id == id
  {
    set i | 0 <= i < |chat| :: chat[i].id
  }

  /** The shared database: one object that the REST routes and the socket service both write. */
  class Database {
    var tables: Tables

    ghost predicate Valid()
      reads this
    {
      Consistent(tables)
    }

    constructor (initial: Tables)
      requires Consistent(initial)
      ensures Valid() && tables == initial
    {
      tables := initial;
    }
  }

  /**
   * `path.split('/').pop() || path`: the file's name is its last '/' segment, or the whole
   * path when that segment is empty.
   */
  function FileName(path: string): string
  {
    var last := Strings.LastSegment(path, '/');
    if last != "" then last else path
  }

  /**
   * The name is the non-empty part after the last '/', which holds no '/' and ends the path;
   * otherwise (no such part) it is the whole path.
   */
  lemma FileNameIsBaseName(path: string)
    ensures var r := FileName(path);
      || (r != "" && '/' !in r && |r| < |path| && r == path[|path| - |r|..] && path[|path| - |r| - 1] == '/')
      || (r == path && (|path| == 0 || path[|path| - 1] == '/' || '/' !in path))
  {
    var last := Strings.LastSegment(path, '/');
    if last != "" && |last| == |path| {
      assert last == path;
    }
  }

  /** A path ending in '/' keeps its whole path as its name; a nested file gets its base name. */
  lemma FileNameExamples()
    ensures FileName("src/main.py") == "main.py"
    ensures FileName("docs/") == "docs/"
  {
    var p := "src/main.py";
    assert p[|p| - |"main.py"|..] == "main.py";
    Strings.LastSegmentUnique(p, '/', "main.py");
    Strings.LastSegmentUnique("docs/", '/', "");
  }

  /** The row `create` writes for a new file: name and language derived from the path. */
  function NewFileRow(path: string, content: string, now: Time): (f: ProjectFile)
    ensures f.path == path && f.content == content && f.size == |content|
    ensures f.name == FileName(path) && f.language == Languages.LanguageFromPath(path)
    ensures !f.isDirectory && f.createdAt == now && f.updatedAt == now
  {
    ProjectFile(FileName(path), path, content, Languages.LanguageFromPath(path), |content|, false, now, now)
  }

  /**
   * `projectFile.upsert` on the unique (projectId, path): an existing row gets the new content,
   * size and updatedAt and keeps everything else; a missing row is created. No other row
   * changes and at most one key is added, so a path never has two rows.
   */
  function Upsert(files: map<FileKey, ProjectFile>, key: FileKey, content: string, now: Time)
    : (r: map<FileKey, ProjectFile>)
    ensures r.Keys == files.Keys + {key}
    ensures forall k :: k in files && k != key ==> r[k] == files[k]
    ensures key in files ==> r[key] == files[key].(content := content, size := |content|, updatedAt := now)
    ensures key !in files ==> r[key] == NewFileRow(key.path, content, now)
  {
    if key in files then files[key := files[key].(content := content, size := |content|, updatedAt := now)]
    else files[key := NewFileRow(key.path, content, now)]
  }

  /**
   * Last writer wins: after two upserts of one path the row holds the second content, and the
   * table has exactly one row more than before if the path was new, none otherwise.
   */
  lemma UpsertTwiceOneRow(files: map<FileKey, ProjectFile>, key: FileKey, c1: string, t1: Time, c2: string, t2: Time)
    ensures var r := Upsert(Upsert(files, key, c1, t1), key, c2, t2);
      && r[key].content == c2 && r[key].size == |c2|
      && |r| == if key in files then |files| else |files| + 1
  {
    var r := Upsert(Upsert(files, key, c1, t1), key, c2, t2);
    assert r.Keys == files.Keys + {key};
    if key !in files {
      assert |files.Keys + {key}| == |files.Keys| + 1;
    } else {
      assert files.Keys + {key} == files.Keys;
    }
  }

  /** Every row's size is the length of its content (the property the seeded README breaks). */
  ghost predicate SizesMatch(files: map<FileKey, ProjectFile>) {
    forall k :: k in files ==> files[k].size == |files[k].content|
  }

  /** An upsert keeps sizes in step with contents. */
  lemma UpsertKeepsSizes(files: map<FileKey, ProjectFile>, key: FileKey, content: string, now: Time)
    requires SizesMatch(files)
    ensures SizesMatch(Upsert(files, key, content, now))
  {
  }

  /** Upserting a row of an existing project keeps the tables consistent. */
  lemma UpsertConsistent(t: Tables, key: FileKey, content: string, now: Time)
    requires Consistent(t)
    requires key.projectId in t.projects
    ensures Consistent(t.(files := Upsert(t.files, key, content, now)))
  {
    var r := Upsert(t.files, key, content, now);
    forall k | k in r
      ensures r[k].path == k.path && k.projectId in t.projects
    {
      if k != key {
        assert r[k] == t.files[k];
      }
    }
  }

  const DefaultDescription := "A new project created with IntelliCode Hub"

  /** Touching a project's lastModified keeps the tables consistent. */
  lemma TouchConsistent(t: Tables, projectId: ProjectId, now: Time)
    requires Consistent(t) && projectId in t.projects
    ensures Consistent(t.(projects := t.projects[projectId := t.projects[projectId].(lastModified := now)]))
  {
    var ps := t.projects[projectId := t.projects[projectId].(lastModified := now)];
    forall pid, i | pid in ps && 0 <= i < |ps[pid].collaborations|
      ensures ps[pid].collaborations[i].userId in t.users
    {
      assert ps[pid].collaborations == t.projects[pid].collaborations;
    }
  }

  /** The README's text: a heading with the name, then the description or the default text. */
  function ReadmeContent(name: string, description: Option<string>): (r: string)
    ensures Strings.StartsWith(r, "# " + name + "\n\n")
    ensures description.Some? && description.value != "" ==> r == "# " + name + "\n\n" + description.value
    ensures description.None? || description == Some("") ==> r == "# " + name + "\n\n" + DefaultDescription
  {
    var text := if description.Some? && description.value != "" then description.value else DefaultDescription;
    "# " + name + "\n\n" + text
  }

  /** The one file a new project is created with. */
  function SeedReadme(name: string, description: Option<string>, now: Time): (f: ProjectFile)
    ensures f.name == "README.md" && f.path == "README.md" && f.language == "markdown"
    ensures f.content == ReadmeContent(name, description) && !f.isDirectory
    ensures f.size == 0
  {
    ProjectFile("README.md", "README.md", ReadmeContent(name, description), "markdown", 0, false, now, now)
  }

  /**
   * The seeded README is stored with size 0 though its content is never empty: the one row
   * whose size is not its content's length. Its language agrees with the extension table.
   */
  lemma SeedReadmeSizeDiffers(name: string, description: Option<string>, now: Time)
    ensures SeedReadme(name, description, now).size != |SeedReadme(name, description, now).content|
    ensures SeedReadme(name, description, now).language == Languages.LanguageFromPath("README.md")
  {
    var c := ReadmeContent(name, description);
    assert |c| >= 4;
    Languages.ReadmeExample();
  }
}
