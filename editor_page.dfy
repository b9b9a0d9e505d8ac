/**
 * The editor page (routes /editor and /editor/:projectId): the code shown in the editor, the
 * editor settings with the active file, and the `code-change` events the page sends and
 * receives. The route parameter and the signed-in user are fixed for the page's lifetime.
 */
module EditorPage {
  import opened Wrappers
  import opened Store
  import Languages
  import SocketService

  /** A received `code-change` event as the listener reads it: absent fields are None. */
  datatype IncomingCodeChange = IncomingCodeChange(projectId: Option<ProjectId>, content: string, userId: Option<UserId>)

  /** The payload `sendCodeChange` emits (`userId` is the signed-in user's id, if any). */
  datatype OutgoingCodeChange = OutgoingCodeChange(projectId: ProjectId, filePath: string, content: string, userId: Option<UserId>)

  datatype EditorState = EditorState(
    activeFile: Option<string>,
    openFiles: seq<string>,
    cursor: SocketService.Position,
    theme: string,
    fontSize: int,
    tabSize: int,
    wordWrap: bool,
    minimap: bool)

  /** The state the page starts with. */
  const InitialState := EditorState(None, [], SocketService.Position(1, 1), "dark", 14, 2, false, true)

  /** A route parameter JavaScript treats as true. */
  predicate Present(projectId: Option<ProjectId>) {
    projectId.Some? && projectId.value != ""
  }

  /**
   * The listener's rule: take the content of an edit made by someone else in this page's
   * project. The comparison is on the event's `projectId` field as received.
   */
  predicate AcceptsRemote(data: IncomingCodeChange, pageProject: Option<ProjectId>, me: Option<UserId>) {
    data.userId != me && data.projectId == pageProject
  }

  /**
   * How the page reads the server's `code-change` event: the server's payload carries no
   * `projectId`, so the field is read as absent.
   */
  function ReadServerEvent(e: SocketService.Event): (d: IncomingCodeChange)
    requires e.CodeChanged?
    ensures d.projectId.None? && d.content == e.content && d.userId == Some(e.userId)
  {
    IncomingCodeChange(None, e.content, Some(e.userId))
  }

  /**
   * As written, on /editor/:projectId no edit relayed by the server is ever applied, whoever
   * made it; on /editor (no project) every edit from someone else is.
   */
  lemma RelayedEditsIgnoredInProject(e: SocketService.Event, projectId: ProjectId, me: Option<UserId>)
    requires e.CodeChanged?
    ensures !AcceptsRemote(ReadServerEvent(e), Some(projectId), me)
    ensures Some(e.userId) != me ==> AcceptsRemote(ReadServerEvent(e), None, me)
  {
  }

  /** The relayed event with the project it belongs to: the payload the listener expects. */
  function ReadTaggedEvent(e: SocketService.Event, projectId: ProjectId): (d: IncomingCodeChange)
    requires e.CodeChanged?
    ensures d.projectId == Some(projectId) && d.content == e.content && d.userId == Some(e.userId)
  {
    IncomingCodeChange(Some(projectId), e.content, Some(e.userId))
  }

  /** With the project in the payload, another user's edit reaches the page of that project. */
  lemma TaggedEditsApplied(e: SocketService.Event, projectId: ProjectId, me: Option<UserId>)
    requires e.CodeChanged?
    ensures AcceptsRemote(ReadTaggedEvent(e, projectId), Some(projectId), me) <==> Some(e.userId) != me
  {
  }

  class Page {
    /** The `:projectId` route parameter (None on /editor). */
    const projectId: Option<ProjectId>
    /** The signed-in user's id. */
    const me: Option<UserId>
    /** Whether the socket exists (`sendCodeChange` emits nothing without one). */
    const connected: bool

    var currentCode: string
    var state: EditorState
    var sent: seq<OutgoingCodeChange>

    constructor (projectId: Option<ProjectId>, me: Option<UserId>, connected: bool)
      ensures this.projectId == projectId && this.me == me && this.connected == connected
      ensures currentCode == "" && state == InitialState && sent == []
    {
      this.projectId := projectId;
      this.me := me;
      this.connected := connected;
      currentCode := "";
      state := InitialState;
      sent := [];
    }

    /** The editor's language: that of the active file, or of '' (plaintext) when none is open. */
    function Language(): (lang: string)
      reads this
      ensures state.activeFile.None? ==> lang == Languages.PlainText
    {
      Languages.NoActiveFileIsPlainText();
      Languages.EditorLanguageFromFile(state.activeFile.GetOr(""))
    }

    /** The `code-change` listener: replaces the code only when `AcceptsRemote` holds. */
    method OnRemoteCodeChange(data: IncomingCodeChange)
      modifies this
      ensures currentCode == if AcceptsRemote(data, projectId, me) then data.content else old(currentCode)
      ensures state == old(state) && sent == old(sent)
    {
      if data.userId != me && data.projectId == projectId {
        currentCode := data.content;
      }
    }

    /**
     * `handleEditorChange`: an undefined value changes nothing; otherwise the code becomes the
     * value and, inside a project, one code change for the active file (or '') is sent.
     */
    method HandleEditorChange(value: Option<string>)
      modifies this
      ensures state == old(state)
      ensures value.None? ==> currentCode == old(currentCode) && sent == old(sent)
      ensures value.Some? ==> currentCode == value.value
      ensures value.Some? ==>
        sent == old(sent) + (if Present(projectId) && connected
                             then [OutgoingCodeChange(projectId.value, state.activeFile.GetOr(""), value.value, me)]
                             else [])
    {
      if value.Some? {
        currentCode := value.value;
        if Present(projectId) && connected {
          sent := sent + [OutgoingCodeChange(projectId.value, state.activeFile.GetOr(""), value.value, me)];
        }
      }
    }

    /** Selecting a file in the explorer changes the active file and nothing else. */
    method SelectFile(path: string)
      modifies this
      ensures state == old(state).(activeFile := Some(path))
      ensures currentCode == old(currentCode) && sent == old(sent)
    {
      state := state.(activeFile := Some(path));
    }
  }
}
