# IntelliCode Hub — a verified model of the collaboration core

IntelliCode Hub is a browser-based collaborative code editor. A React front end talks to an
Express back end. The back end stores users, projects, collaborations, project files, cursor
positions and chat messages through Prisma. It also relays live edits over a Socket.IO server
in which every project has a room.

This project models in Dafny the parts that decide who may do what and what everyone then sees:

- the back end: the `authenticate` / `authorize` / `optionalAuth` middleware, the project and
  file routes, and the socket server with its handshake, rooms, code-change upsert, cursor rows,
  chat and typing signals;
- the front end: the editor page (its `code-change` listener, what it sends, the language of
  the active file), the collaboration panel (collaborator list, chat, role badges), the project
  list page (search, filter, sort, delete), the file explorer (search, highlighted rows, clicks)
  and the file icons of the project page.

How the model is laid out:

- **Pure code** (the language tables, the access predicates, the comparators and filters) is
  written as functions, with lemmas about them.
- **Stateful code** is written as classes:
  - `Store.Database` holds the persisted tables.
  - `ProjectRoutes.ProjectRouter` and `SocketService.CollabServer` share one `Database`. The
    socket server also owns the session, room and outbox state.
  - The front-end components (`EditorPage.Page`, `CollaborationPanel.Panel`,
    `ProjectsPage.Page`, `FileExplorer.Item`) keep their React state in fields.
- **Each handler method** states its whole new state and its answer. It does this in terms of
  the pure functions (`Upsert`, `WithoutProject`, `WithoutMember`, `CollaboratorViews`, the
  verdict functions), whose properties are proved as lemmas.
- **Store failures** are a parameter. `StoreFault.ThrowsAt(n)` makes the handler's n-th awaited
  store call throw, so every error branch of every handler is modelled.
- **JWT verification** is also a parameter: the id the token verifies to, if any.
- **Timestamps and new ids** are parameters too.
- **Emitted socket events** are appended to `outbox` as `Emission(recipients, event)`.

### Behaviour of the code worth noting

- A disconnect removes the socket from its rooms (the transport does this), but the
  `disconnect` handler only logs. No `user-left` is sent (`SocketService.CollabServer.Disconnect`).
- `leave-project` sends `user-left` to the room even when the socket was not a member
  (`SocketService.CollabServer.LeaveProject`).
- The README row seeded at project creation has `size` 0, not the length of its content
  (`Store.SeedReadmeSizeDiffers`).
- `code-change` decides write access by the `userId` in the event payload, not by the socket's
  authenticated user (`SocketService.CollabServer.CodeChange`).
- A failure of the `lastModified` update after a successful file upsert keeps the upsert but
  answers 500 (`ProjectRoutes.ProjectRouter.PutFile`) or an error event
  (`SocketService.CollabServer.CodeChange`).

## Model

| member | source | states |
|---|---|---|
| Strings.Lower | backend/src/routes/projects.ts:540 | `toLowerCase` keeps the length and lower-cases each ASCII letter; it is idempotent (`Strings.LowerIdempotent`) |
| Strings.LastSegment | backend/src/routes/projects.ts:540 | `split(sep).pop()` is the suffix after the last separator, free of the separator, or the whole string when there is none; these three facts determine it (`Strings.LastSegmentUnique`) |
| Strings.Trim | backend/src/routes/projects.ts:105 | definition: `trim()` drops the leading white space, then the trailing white space (properties: `Strings.TrimEmptyIffAllSpace`, `Strings.TrimIdempotent`) |
| Strings.TrimEmptyIffAllSpace | backend/src/routes/projects.ts:105 | a field fails `trim().isLength({ min: 1 })` exactly when it is all white space |
| Strings.TrimIdempotent | backend/src/routes/projects.ts:171-172 | trimming an already trimmed field changes nothing |
| Seqs.Filter | frontend/src/pages/Projects.tsx:76-83 | `Array.filter` keeps, in order, exactly the elements satisfying the predicate, each as often as it occurred |
| Seqs.SortBy | frontend/src/pages/Projects.tsx:85-96 | the stable sort returns a permutation of its input |
| Seqs.SortBySorted | frontend/src/pages/Projects.tsx:85-96 | with a total preorder as comparator, the sorted copy is ordered by it |
| Seqs.SortByAllTiesIsIdentity | frontend/src/pages/Projects.tsx:94-95 | a comparator that calls every pair equal leaves the order unchanged (the all-ties case of stability) |
| Seqs.SortByStable | frontend/src/pages/Projects.tsx:85-96 | the sort is stable: for every element `c`, the elements tied with `c` appear in the result in the order and number they had in the input |
| Languages.Extension | backend/src/routes/projects.ts:540 | the extension is never longer than the path and never contains '.' (what it is exactly: `Languages.ExtensionAfterLastDot`) |
| Languages.RouteLanguage | backend/src/routes/projects.ts:539-566 | the route's table: the language is plaintext exactly when the extension is not one of its keys, and otherwise the table's entry |
| Languages.SocketLanguage | backend/src/services/socketService.ts:335-362 | the socket server's copy of the table: plaintext exactly for unknown extensions |
| Languages.EditorLanguage | frontend/src/pages/Editor.tsx:131-158 | the editor's copy of the table: plaintext exactly for unknown extensions |
| Languages.LanguageFromPath | backend/src/routes/projects.ts:539-566 | definition: `getLanguageFromPath` of the routes, the route table's language for the path's extension, or plaintext |
| Languages.SocketLanguageFromPath | backend/src/services/socketService.ts:335-362 | definition: `getLanguageFromPath` of the socket service, over its own copy of the table |
| Languages.EditorLanguageFromFile | frontend/src/pages/Editor.tsx:131-158 | definition: `getLanguageFromFile` of the editor, over its own copy of the table |
| Languages.CopiesAgree | backend/src/services/socketService.ts:335-362 | the three copies of the extension table give the same language for every path (they are written identically, so this records that the copies have not drifted) |
| Languages.ScriptLanguages | backend/src/routes/projects.ts:542-545 | exactly js, jsx, ts and tsx map to javascript or typescript |
| Languages.ExtensionAfterLastDot | backend/src/routes/projects.ts:540 | a name ending in `.ext`, with no '.' in `ext`, has the lower-cased `ext` as its extension |
| Languages.ExtensionIgnoresCase | backend/src/routes/projects.ts:540 | lower-casing a path does not change its extension |
| Languages.EmptyExtension | backend/src/routes/projects.ts:540 | the empty path and a path ending in '.' have the empty extension |
| Languages.EmptyExtensionUnknown | backend/src/routes/projects.ts:565 | the route's table gives plaintext for the empty extension |
| Languages.EmptyExtensionIsPlainText | backend/src/routes/projects.ts:565 | the empty path and a path ending in '.' get plaintext |
| Languages.NoActiveFileIsPlainText | frontend/src/pages/Editor.tsx:302 | with no active file the editor language is plaintext |
| Languages.LanguageAfterLastDot | backend/src/routes/projects.ts:539-566 | the language of `prefix.ext` is the table's entry for the lower-cased `ext` when `ext` has no dot |
| Languages.PythonExample | backend/src/routes/projects.ts:546 | Example: "x.py" is python |
| Languages.ReadmeExample | backend/src/routes/projects.ts:562 | Example: "README.md" is markdown |
| Languages.UpperCaseExample | backend/src/routes/projects.ts:540 | Example: "src/App.TSX" is typescript |
| Languages.DoubleExtensionExample | backend/src/routes/projects.ts:540 | Example: "archive.tar.gz" is plaintext: only the text after the last dot counts |
| Languages.NoDotExample | backend/src/routes/projects.ts:540 | Example: "Makefile" is plaintext |
| ProjectDetail.IconForExtension | frontend/src/pages/ProjectDetail.tsx:85-98 | the code icon is chosen exactly for js, jsx, ts and tsx; every other extension gets the text icon |
| ProjectDetail.FileIconFor | frontend/src/pages/ProjectDetail.tsx:85-98 | definition: `getFileIcon`, the extension switch applied to the lower-cased text after the last '.' (properties: `ProjectDetail.CodeIconIffScriptLanguage`, `ProjectDetail.IconIgnoresCase`) |
| ProjectDetail.CodeIconIffScriptLanguage | frontend/src/pages/ProjectDetail.tsx:85-98 | a file gets the code icon exactly when the back end's table calls it javascript or typescript |
| ProjectDetail.IconIgnoresCase | frontend/src/pages/ProjectDetail.tsx:86 | the icon does not depend on letter case |
| ProjectDetail.UpperCaseScriptExample | frontend/src/pages/ProjectDetail.tsx:86-92 | Example: "App.TSX" gets the code icon |
| ProjectDetail.TextIconExamples | frontend/src/pages/ProjectDetail.tsx:93-96 | Example: "README.md" and "notes." get the text icon |
| ProjectDetail.NoDotTextIconExample | frontend/src/pages/ProjectDetail.tsx:93-96 | Example: "Makefile", a name without a '.', gets the text icon |
| Store.RoleName | backend/src/services/socketService.ts:104 | a role is sent as its enum name: "OWNER" exactly for Owner, "EDITOR" exactly for Editor, "VIEWER" exactly for Viewer |
| Store.FileName | backend/src/services/socketService.ts:175 | definition: `path.split('/').pop() || path` (characterised by `Store.FileNameIsBaseName`) |
| Store.FileNameIsBaseName | backend/src/routes/projects.ts:383 | a file's name is the text after the last '/' of its path, or the whole path when that text is empty |
| Store.FileNameExamples | backend/src/routes/projects.ts:383 | Example: "src/main.py" is named "main.py", and "docs/" keeps its whole path as its name |
| Store.NewFileRow | backend/src/services/socketService.ts:174-181 | a created file row has the given path and content, size equal to the content length, the base name, the language from the path, and both timestamps now |
| Store.Upsert | backend/src/services/socketService.ts:162-182 | the upsert on (project, path) adds that key only; it rewrites content, size and updatedAt of an existing row, keeping the rest; it creates `NewFileRow` for a new key; it leaves other rows alone |
| Store.UpsertTwiceOneRow | backend/src/routes/projects.ts:370-390 | two writes to the same path leave one row holding the last content (last writer wins) |
| Store.UpsertKeepsSizes | backend/src/routes/projects.ts:370-390 | if every row's size equals its content length, it still does after an upsert |
| Store.UpsertConsistent | backend/src/services/socketService.ts:162-182 | an upsert into an existing project keeps the tables consistent |
| Store.TouchConsistent | backend/src/services/socketService.ts:185-188 | setting a project's lastModified keeps the tables consistent |
| Store.ReadmeContent | backend/src/routes/projects.ts:131 | the seeded README is "# name", a blank line, then the description, or the default sentence when the description is absent or empty |
| Store.SeedReadme | backend/src/routes/projects.ts:125-136 | the seeded row is README.md, markdown, with the generated content |
| Store.SeedReadmeSizeDiffers | backend/src/routes/projects.ts:125-136 | the seeded row's size is 0 while its content is not empty; its language agrees with the table |
| Access.CanRead | backend/src/routes/projects.ts:58-65 | definition: the read query (also socketService.ts:66-74 and 261-269): the project exists and the user owns it or has a collaboration row of any role |
| Access.CanWrite | backend/src/routes/projects.ts:188-203 | definition: the write query (also socketService.ts:139-154): the project exists and the user owns it or has a collaboration row of role OWNER or EDITOR |
| Access.IsOwner | backend/src/routes/projects.ts:254-259 | definition: the delete query: the project exists and its `ownerId` is the user |
| Access.AccessHierarchy | backend/src/routes/projects.ts:188-210 | write access implies read access, and owning the project implies both |
| Access.ViewerReadsOnly | backend/src/services/socketService.ts:136-159 | a non-owner whose rows are all VIEWER can never write, and can read exactly when such a row exists |
| Access.StrangerHasNoAccess | backend/src/routes/projects.ts:58-65 | a user who neither owns the project nor has a collaboration row can neither read nor write it |
| Access.MissingProjectDenied | backend/src/routes/projects.ts:58-65 | nobody can read, write or own a project that does not exist |
| Access.AccessIsLocal | backend/src/services/socketService.ts:66-79 | changing another project's row changes neither read nor write access to this one |
| AuthMiddleware.ExtractToken | backend/src/middleware/auth.ts:22 | a token is extracted exactly when the header starts with "Bearer ", and it is the rest of the header |
| AuthMiddleware.BearerHeader | frontend/src/services/api.ts:20-22 | the client's header is "Bearer " followed by the token |
| AuthMiddleware.BearerRoundTrip | frontend/src/services/api.ts:20-22 | the middleware extracts exactly the token the client put in its header |
| AuthMiddleware.ExtractTokenInverse | backend/src/middleware/auth.ts:22 | an extracted token rebuilds the header it came from |
| AuthMiddleware.OtherSchemesRejected | backend/src/middleware/auth.ts:22-30 | every header that does not start with exactly "Bearer " yields no token |
| AuthMiddleware.OtherSchemesExamples | backend/src/middleware/auth.ts:22-30 | Example: "bearer abc", "Bearer" and a missing header yield no token |
| AuthMiddleware.AuthenticateVerdict | backend/src/middleware/auth.ts:15-61 | the request proceeds as the stored user exactly when a non-empty token verifies to an existing user; otherwise it is a 401 with "Access token required", "Invalid token" or "User not found" |
| AuthMiddleware.AuthenticateDeniesWith401 | backend/src/middleware/auth.ts:24-60 | every refusal of `authenticate` has status 401 |
| AuthMiddleware.AuthorizeVerdict | backend/src/middleware/auth.ts:63-83 | no user gives 401 "Authentication required"; a role outside the list gives 403 "Insufficient permissions"; otherwise the request proceeds |
| AuthMiddleware.EmptyRolesRejectAll | backend/src/middleware/auth.ts:73 | `authorize()` with no roles refuses every authenticated user with 403 |
| AuthMiddleware.AuthenticateThenAuthorize | backend/src/middleware/auth.ts:63-83 | after a successful `authenticate`, `authorize` passes exactly when the stored user's role is among the listed roles |
| AuthMiddleware.OptionalUser | backend/src/middleware/auth.ts:85-117 | `optionalAuth` attaches a user exactly when `authenticate` would proceed, and that same user |
| AuthMiddleware.Exchange.Authenticate | backend/src/middleware/auth.ts:15-61 | the request state after `authenticate`: the user and `next()` on success, the 401 answer otherwise |
| AuthMiddleware.Exchange.Authorize | backend/src/middleware/auth.ts:63-83 | the request state after `authorize`: `next()` or the 401/403 answer |
| AuthMiddleware.Exchange.OptionalAuth | backend/src/middleware/auth.ts:85-117 | `optionalAuth` always calls `next()`, never answers, and attaches `OptionalUser` when there is one |
| ProjectRoutes.CreateInputValid | backend/src/routes/projects.ts:105-107 | definition: POST / passes validation when `name` is present and not blank after trimming |
| ProjectRoutes.UpdateInputValid | backend/src/routes/projects.ts:171-173 | definition: PUT /:id passes validation when `name` is absent, or present and not blank after trimming |
| ProjectRoutes.PathValid | backend/src/routes/projects.ts:330 | definition: the file routes (also line 413) pass validation when `path` is present and not blank after trimming |
| ProjectRoutes.Trimmed | backend/src/routes/projects.ts:106 | an optional field stays absent, or is trimmed |
| ProjectRoutes.FileKeyOf | backend/src/routes/projects.ts:330 | a file route addresses the (project, trimmed path) row |
| ProjectRoutes.NewProject | backend/src/routes/projects.ts:120-130 | a created project has the caller as owner, no collaborators, the trimmed non-empty name and description, is private unless `isPublic` is true, and has all timestamps now |
| ProjectRoutes.MergeUpdate | backend/src/routes/projects.ts:212-219 | an update changes the name only when it is non-blank, changes description and isPublic only when given, always sets updatedAt, and never changes id, owner, collaborators, createdAt or lastModified |
| ProjectRoutes.MergeEmptyBody | backend/src/routes/projects.ts:212-219 | an empty update body only refreshes updatedAt |
| ProjectRoutes.MergeIdempotent | backend/src/routes/projects.ts:212-219 | applying the same update twice equals applying it once |
| ProjectRoutes.FilesOf | backend/src/routes/projects.ts:310-313 | the files listed for a project are exactly its rows, by path |
| ProjectRoutes.WithoutProject | backend/src/routes/projects.ts:268-270 | the tables after the delete: the project row (with its collaboration rows) goes; the file and cursor rows of that project are assumed to cascade; users, chat rows and other projects' rows stay |
| ProjectRoutes.AddProjectConsistent | backend/src/routes/projects.ts:120-137 | adding a new project with its README row keeps the tables consistent |
| ProjectRoutes.ProjectRouter.GetProject | backend/src/routes/projects.ts:54-101 | GET /:id answers 200 with the project for readers, 404 "Project not found" for others, 500 when the lookup throws |
| ProjectRoutes.ProjectRouter.GetFiles | backend/src/routes/projects.ts:288-326 | GET /:id/files answers the project's files to readers, 404 to others, 500 when a store call throws |
| ProjectRoutes.ProjectRouter.CreateProject | backend/src/routes/projects.ts:104-167 | POST / answers 400 on a blank name; otherwise it writes `NewProject` and its README row and answers 201, or 500 with nothing written; the tables stay consistent |
| ProjectRoutes.ProjectRouter.UpdateProject | backend/src/routes/projects.ts:170-246 | PUT /:id answers 400 on a blank name and 404 to non-writers; a writer's update stores `MergeUpdate` and answers 200; a throwing store call gives 500 with nothing written |
| ProjectRoutes.ProjectRouter.DeleteProject | backend/src/routes/projects.ts:249-285 | only the project's owner deletes (a collaborator with role OWNER cannot); the tables become `WithoutProject` and the answer is 200 "Project deleted successfully" |
| ProjectRoutes.ProjectRouter.PutFile | backend/src/routes/projects.ts:329-409 | PUT /:id/files validates path and content, requires write access, upserts the row and touches lastModified; if the touch throws, the upsert stays and the answer is 500 |
| ProjectRoutes.ProjectRouter.PostFile | backend/src/routes/projects.ts:412-475 | POST /:id/files creates a row with content defaulting to ''; an existing path is refused with 500 "Failed to create file"; lastModified is not touched |
| ProjectRoutes.ProjectRouter.DeleteFile | backend/src/routes/projects.ts:478-536 | DELETE /:id/files removes the row of that path if any, and answers 200 whether or not it existed |
| SocketService.RoomOf | backend/src/services/socketService.ts:81 | a project's room is "project:" followed by its id |
| SocketService.RoomOfInjective | backend/src/services/socketService.ts:81 | different projects have different rooms |
| SocketService.HandshakeVerdict | backend/src/services/socketService.ts:26-57 | a socket is admitted as the stored user exactly when a non-empty token verifies to an existing user; otherwise it is refused with the matching "Authentication error: …" message |
| SocketService.CollaboratorViews | backend/src/services/socketService.ts:91-106 | the list sent to a joiner has one entry per collaboration row, with that user's id, name and avatar, the enum role name, and marked online |
| SocketService.ViewRolesAreUpperCase | backend/src/services/socketService.ts:104 | every role in that list is "OWNER", "EDITOR" or "VIEWER" |
| SocketService.WithoutMember | backend/src/services/socketService.ts:117 | leaving a room removes the socket from that room only; a room left empty disappears |
| SocketService.WithoutSocket | backend/src/services/socketService.ts:329-331 | on disconnect the socket leaves every room; rooms left empty disappear |
| SocketService.CollabServer.Handshake | backend/src/services/socketService.ts:26-57 | only an admitted socket gets a session, bound to `HandshakeVerdict`'s user |
| SocketService.CollabServer.JoinProject | backend/src/services/socketService.ts:63-113 | a reader joins the room; the other members get `user-joined`; then the joiner gets the collaborator list (or the error on a second failing lookup); a denial or a first failing lookup only answers the sender |
| SocketService.CollabServer.LeaveProject | backend/src/services/socketService.ts:116-126 | the socket is no longer in the room, and the remaining members get `user-left` |
| SocketService.CollabServer.CodeChange | backend/src/services/socketService.ts:129-204 | a writer's edit is upserted, lastModified touched, then relayed to every member but the sender; a denial or a failing store call answers only the sender; a failing touch keeps the upsert; a created row's language comes from `Languages.LanguageFromPath`, which equals the socket service's own copy (`Languages.CopiesAgree`) |
| SocketService.CollabServer.CursorPosition | backend/src/services/socketService.ts:207-250 | the (user, project, file) cursor row gets the position and the other members hear it; a store failure changes nothing and tells nobody |
| SocketService.StoredText | backend/src/services/socketService.ts:276-289 | the store takes the `message` field as text exactly when it is a string, and then that string |
| SocketService.CollabServer.ChatMessage | backend/src/services/socketService.ts:253-307 | a reader's text message is appended as a row authored by the socket's user and sent to every member including the sender; a `message` field that is not a string (`StoredText`) or a store failure answers "Failed to send message" to the sender only |
| SocketService.CollabServer.TypingStart | backend/src/services/socketService.ts:310-317 | the other members hear `user-typing` with isTyping true; nothing else changes |
| SocketService.CollabServer.TypingStop | backend/src/services/socketService.ts:319-326 | the other members hear `user-typing` with isTyping false; nothing else changes |
| SocketService.CollabServer.Disconnect | backend/src/services/socketService.ts:329-331 | the socket's session ends and it is in no room afterwards; nobody is told |
| EditorPage.AcceptsRemote | frontend/src/pages/Editor.tsx:71 | definition: the listener's test, the event's user is not the page's user and the event's `projectId` equals the page's |
| EditorPage.ReadServerEvent | backend/src/services/socketService.ts:191-197 | the relayed edit, as the page reads it, has no projectId and carries the content and author |
| EditorPage.RelayedEditsIgnoredInProject | frontend/src/pages/Editor.tsx:70-74 | on /editor/:projectId no relayed edit is applied; on /editor every edit by someone else is |
| EditorPage.ReadTaggedEvent | backend/src/services/socketService.ts:191-197 | the relayed edit with its project id added |
| EditorPage.TaggedEditsApplied | frontend/src/pages/Editor.tsx:70-74 | with the project id in the payload, an edit reaches the page of its project exactly when someone else made it |
| EditorPage.Page.Language | frontend/src/pages/Editor.tsx:247 | the editor language is plaintext when no file is active |
| EditorPage.Page.OnRemoteCodeChange | frontend/src/pages/Editor.tsx:70-74 | the code is replaced exactly when `AcceptsRemote` holds, and nothing else changes |
| EditorPage.Page.HandleEditorChange | frontend/src/pages/Editor.tsx:88-95 | an undefined value changes nothing; otherwise the code becomes the value and, inside a project with a socket, one change for the active file (or '') is sent |
| EditorPage.Page.SelectFile | frontend/src/pages/Editor.tsx:168-170 | selecting a file changes the active file only |
| CollaborationPanel.WithCursor | frontend/src/components/CollaborationPanel.tsx:88-96 | a cursor event sets position and file on the entries of that user only, keeping length, order and all other entries |
| CollaborationPanel.CursorOfStrangerIgnored | frontend/src/components/CollaborationPanel.tsx:88-96 | a cursor event of a user not in the list changes nothing |
| CollaborationPanel.WithCursorIdempotent | frontend/src/components/CollaborationPanel.tsx:88-96 | replaying a cursor event changes nothing more |
| CollaborationPanel.RoleColor | frontend/src/components/CollaborationPanel.tsx:147-158 | yellow exactly for 'owner', blue exactly for 'editor', gray for everything else |
| CollaborationPanel.RoleIconFor | frontend/src/components/CollaborationPanel.tsx:134-145 | the crown exactly for 'owner', the pencil (`Edit`) exactly for 'editor', the eye exactly for 'viewer', and no icon for anything else |
| CollaborationPanel.ServerRolesUnstyled | frontend/src/components/CollaborationPanel.tsx:134-158 | every role the server sends gets gray and no icon |
| CollaborationPanel.RoleColorOf | frontend/src/components/CollaborationPanel.tsx:147-158 | the corrected colour: yellow exactly when the lower-cased role is 'owner', blue exactly when it is 'editor', gray for every other role |
| CollaborationPanel.RoleIconOf | frontend/src/components/CollaborationPanel.tsx:134-145 | the corrected icon: the crown, pencil or eye exactly when the lower-cased role is 'owner', 'editor' or 'viewer', and none for any other role |
| CollaborationPanel.ServerRolesStyledCaseInsensitively | frontend/src/components/CollaborationPanel.tsx:134-158 | with case-insensitive matching, OWNER is yellow with the crown, EDITOR blue with the pencil, VIEWER gray with the eye |
| CollaborationPanel.SendsOnKey | frontend/src/components/CollaborationPanel.tsx:128 | definition: the key is Enter and Shift is not held |
| CollaborationPanel.EntryJson | frontend/src/components/CollaborationPanel.tsx:109-116 | a chat entry goes on the wire as an object of exactly six string fields |
| CollaborationPanel.EntryRoundTrip | frontend/src/components/CollaborationPanel.tsx:109-121 | reading the sent object back gives the entry unchanged |
| CollaborationPanel.PanelPayload | frontend/src/components/CollaborationPanel.tsx:118-121 | the emitted payload's `message` member is the entry's object, and `projectId` is present exactly when the panel has a project |
| CollaborationPanel.PanelPayloadNeverStored | backend/src/services/socketService.ts:258-289 | for every entry, the server's `message` from the panel's payload is not a string, so the store takes no text, though the entry itself arrives intact |
| CollaborationPanel.TextPayload | frontend/src/components/CollaborationPanel.tsx:118-121 | the corrected payload `{ projectId, message: text }` carries the same project member as the panel's |
| CollaborationPanel.TextPayloadStored | backend/src/services/socketService.ts:258-289 | for every text, the corrected payload's `message` is stored as exactly that text |
| CollaborationPanel.Panel.LocalEntry | frontend/src/components/CollaborationPanel.tsx:109-116 | the local entry carries the typed text, the given id and time, kind 'message', the user's id or '', and the user's name or 'Anonymous' |
| CollaborationPanel.Panel.OnCollaboratorsUpdated | frontend/src/components/CollaborationPanel.tsx:78-80 | the list is replaced by the received one |
| CollaborationPanel.Panel.OnChatMessage | frontend/src/components/CollaborationPanel.tsx:83-85 | the received entry is appended at the end |
| CollaborationPanel.Panel.OnCursorPosition | frontend/src/components/CollaborationPanel.tsx:88-96 | the list becomes `WithCursor` of the old list |
| CollaborationPanel.Panel.EditMessage | frontend/src/components/CollaborationPanel.tsx:326 | typing sets the input and nothing else |
| CollaborationPanel.Panel.SendMessage | frontend/src/components/CollaborationPanel.tsx:106-125 | blank input or no socket changes nothing; otherwise `PanelPayload` of the local entry is emitted, the entry appended and the input cleared |
| CollaborationPanel.Panel.HandleKeyPress | frontend/src/components/CollaborationPanel.tsx:127-132 | Enter without Shift sends; any other key changes nothing |
| ProjectsPage.MatchesSearch | frontend/src/pages/Projects.tsx:77-78 | definition: the lower-cased name, or the lower-cased description when there is one, contains the lower-cased term |
| ProjectsPage.MatchesFilter | frontend/src/pages/Projects.tsx:79-81 | definition: the filter is 'all', or 'public' for a public project, or 'private' for a private one |
| ProjectsPage.EmptyTermMatchesAll | frontend/src/pages/Projects.tsx:77 | the empty search term matches every project |
| ProjectsPage.FilterValues | frontend/src/pages/Projects.tsx:79-81 | 'public' keeps exactly public projects, 'private' exactly private ones, 'all' every project, and any other value none |
| ProjectsPage.FilteredProjects | frontend/src/pages/Projects.tsx:76-83 | the shown list keeps, in order, exactly the projects matching both search and filter |
| ProjectsPage.NoFilterShowsAll | frontend/src/pages/Projects.tsx:76-83 | with no search term and filter 'all', every project is shown in order |
| ProjectsPage.LexLeTotal | frontend/src/pages/Projects.tsx:88 | any two names are comparable |
| ProjectsPage.LexLeTransitive | frontend/src/pages/Projects.tsx:88 | the name order is transitive |
| ProjectsPage.Compare | frontend/src/pages/Projects.tsx:85-96 | by name the comparator is non-positive exactly when a's name comes first; by date it is b's time minus a's; any other key gives 0 |
| ProjectsPage.BeforeIsTotalPreorder | frontend/src/pages/Projects.tsx:85-96 | every known sort key induces a total preorder |
| ProjectsPage.SortedProjects | frontend/src/pages/Projects.tsx:85 | the sorted list is a permutation of the filtered list |
| ProjectsPage.SortedByName | frontend/src/pages/Projects.tsx:87-88 | sorting by 'name' yields ascending names |
| ProjectsPage.SortedNewestFirst | frontend/src/pages/Projects.tsx:89-92 | sorting by createdAt or updatedAt yields newest first |
| ProjectsPage.UnknownSortKeepsOrder | frontend/src/pages/Projects.tsx:93-94 | an unknown sort key keeps the filtered order |
| ProjectsPage.SortedProjectsStable | frontend/src/pages/Projects.tsx:85-96 | projects the sort key calls equal (the same name, or the same date) keep their filtered order |
| ProjectsPage.WithoutId | frontend/src/pages/Projects.tsx:102 | after a delete, no entry has that id, the others keep their order and multiplicity |
| ProjectsPage.CountNoun | frontend/src/pages/Projects.tsx:127 | the label says "project" exactly for one project, "projects" otherwise |
| ProjectsPage.Page.Shown | frontend/src/pages/Projects.tsx:76-96 | the shown cards are a permutation of the filtered projects |
| ProjectsPage.Page.HandleDeleteProject | frontend/src/pages/Projects.tsx:98-107 | a confirmed, successful delete leaves `WithoutId`; a cancel or a failed request changes nothing |
| FileExplorer.NameMatches | frontend/src/components/FileExplorer.tsx:150-152 | definition: the lower-cased name contains the lower-cased term |
| FileExplorer.FilteredFiles | frontend/src/components/FileExplorer.tsx:150-152 | the listed files are, in order, exactly those whose lower-cased name contains the lower-cased term |
| FileExplorer.EmptySearchKeepsAll | frontend/src/components/FileExplorer.tsx:150-152 | an empty search lists every file in order |
| FileExplorer.TopLevelRows | frontend/src/components/FileExplorer.tsx:207-215 | one level-0 row per listed file, highlighted exactly when it is the active file |
| FileExplorer.AtMostOneActiveTopLevel | frontend/src/components/FileExplorer.tsx:212 | with distinct paths, at most one top-level row is highlighted |
| FileExplorer.Item.HandleClick | frontend/src/components/FileExplorer.tsx:49-55 | a click toggles a directory and selects nothing, or selects a file exactly once |
| FileExplorer.Item.ChildRows | frontend/src/components/FileExplorer.tsx:103-115 | only an expanded directory with children renders rows, one per child at the next level, highlighted when the child's path equals the directory's own |
| FileExplorer.Item.ChildRowsFor | frontend/src/components/FileExplorer.tsx:103-115 | the corrected child rows, highlighted against the active file |
| FileExplorer.Item.ActiveChildHighlight | frontend/src/components/FileExplorer.tsx:110 | as written, the active child is not highlighted; compared with the active file, it is |
| Scenarios.TwoMembers | backend/src/services/socketService.ts:63-113 | Ann (owner) and Bob (editor) both join project p1, whose room then holds both sockets |
| Scenarios.AnnTypes | frontend/src/contexts/SocketContext.tsx:76-85 | typing in Ann's editor sends the edit tagged with p1, the file and her id |
| Scenarios.ServerRelaysEdit | backend/src/services/socketService.ts:191-197 | the server relays Ann's edit to Bob's socket only |
| Scenarios.BobReceivesEdit | frontend/src/pages/Editor.tsx:70-74 | as written Bob's editor keeps its empty code; with the project id in the payload it shows Ann's code |
| Scenarios.PanelSendsHello | frontend/src/components/CollaborationPanel.tsx:106-125 | sending "hello" in the panel appends it locally and emits `PanelPayload` of it |
| Scenarios.TypeAndSend | frontend/src/components/CollaborationPanel.tsx:106-125 | typing a non-blank text into a connected panel and sending it shows and emits exactly that one entry |
| Scenarios.ChatFromPanelRejected | backend/src/services/socketService.ts:277-306 | the panel's payload is answered with "Failed to send message" and no row is stored |
| Scenarios.ChatTextEchoedToSender | backend/src/services/socketService.ts:292-300 | a text payload is stored once and reaches both members, so the sender's panel holds its entry twice |
| Scenarios.StrangerRefused | backend/src/services/socketService.ts:66-79 | a user without a collaboration row is refused and the room is unchanged |

## Left out

- The Prisma schema and engine are not part of this model. The tables are maps keyed by their
  unique keys. A store failure is the `StoreFault` parameter. `Store.Consistent` checks two
  foreign keys, file → project and collaborator → user; chat rows, cursor rows and project
  owners are not checked against users or projects.
- The column types are not in the sources: the chat `message` column is assumed to be a
  string column, so `chatMessage.create` refuses anything but a string (`SocketService.StoredText`).
- JWT signing and verification and bcrypt are left out. The id a token verifies to is a
  parameter. Login, registration and the other routes in `auth.ts`, `users.ts` and `ai.ts` are
  left out.
- Socket.IO transport, delivery order across sockets, and async interleaving of handlers are
  left out. Each handler runs to completion atomically, and emitted events are appended to
  `outbox` in the order the handler emits them.
- Clock and identifiers: `new Date()`, `Date.now()` and cuid ids are parameters. ISO strings
  and `toLocaleTimeString` are not modelled.
- Strings.Lower: ASCII letters only, where JavaScript's `toLowerCase` folds all of Unicode.
  This is exact for the language-table keys, but case-insensitive search over non-ASCII names
  is not modelled.
- Strings.Trim: removes ASCII white space only, where JavaScript's `trim` also removes the
  Unicode space separators.
- Store.NewFileRow: `size` is the number of characters, where JavaScript's `length` counts
  UTF-16 code units; content outside the Basic Multilingual Plane is not modelled.
- ProjectsPage.Compare: `localeCompare` is replaced by code-point order (`LexLe`), and dates
  are integers.
- ProjectsPage.CountNoun: only the noun of the count label is modelled, not the number text.
- Languages.RouteTable: the table lookup assumes the extension is not an inherited object
  property (`constructor`, `toString`, …). Such an extension would return a function in the
  source.
- ProjectRoutes.ProjectRouter.GetFiles: the files are returned as a map by path. The route's
  ordering by path is not modelled.
- ProjectRoutes.ProjectRouter.DeleteProject: the route deletes only the project row. Its
  file and cursor rows are assumed to cascade and its chat rows are assumed to stay
  (`ProjectRoutes.WithoutProject`). A restrictive relation, under which the delete would
  throw and answer 500, is not modelled.
- SocketService.CodePayload: `userId` is always present. An absent `userId` would make the
  `ownerId: undefined` condition of the access lookup match every project, which is not
  modelled; the client always sends the signed-in user's id (`SocketContext.tsx` lines 76-85).
- SocketService.CollabServer.ChatMessage: the payload's `projectId` is taken as a string; an
  absent `projectId` is not modelled.
- ProjectRoutes.ProjectRouter.CreateProject: requires an id not yet in use, standing in for a
  generated cuid.
- SocketService.CollabServer.ChatMessage: requires a fresh message id, standing in for a
  generated cuid.
- Response bodies are not modelled: the `include` of owner and collaborators in route answers,
  `success` flags and other JSON envelopes.
- express-validator: only present/absent and the trimmed-blank checks are modelled. Non-string
  JSON values in string fields are not.
- UI-only behaviour is left out: layout, colours of the chat bubbles, loading spinners, video
  and microphone toggles, the AI panel, theme and the Monaco editor itself.

## Findings

| source | as written | input that shows it | evidently intended | confidence | as-written member | corrected member |
|---|---|---|---|---|---|---|
| backend/src/services/socketService.ts:191-197 with frontend/src/pages/Editor.tsx:70-74 | the relayed `code-change` payload has no `projectId`, and the editor applies an edit only when `data.projectId === projectId` | Ann and Bob both open /editor/p1 and Ann types "x = 1": Bob's editor keeps its old code | collaborators in the same project see each other's edits | not executed | EditorPage.RelayedEditsIgnoredInProject | EditorPage.TaggedEditsApplied |
| frontend/src/components/CollaborationPanel.tsx:134-158 with backend/src/services/socketService.ts:104 | the badge matches 'owner'/'editor'/'viewer', but the server sends 'OWNER'/'EDITOR'/'VIEWER' | any collaborator list from `collaborators-updated`: every badge is gray with no icon | owners yellow with a crown, editors blue with a pencil | not executed | CollaborationPanel.ServerRolesUnstyled | CollaborationPanel.ServerRolesStyledCaseInsensitively |
| frontend/src/components/CollaborationPanel.tsx:118-121 with backend/src/services/socketService.ts:277-289 | the panel emits `{ projectId, message: ChatMessage }`, whose `message` is an object, and the server stores `message` in a text column | typing "hello" and pressing Enter: the server answers "Failed to send message" and stores nothing, while the sender's panel shows "hello" | the text is stored and broadcast | not executed | CollaborationPanel.PanelPayloadNeverStored | CollaborationPanel.TextPayloadStored |
| frontend/src/components/FileExplorer.tsx:110 | a child row is highlighted when `child.path === file.path`, its parent's path | an expanded directory "src" whose child "src/main.py" is the active file: the child is not highlighted | the child is highlighted when it is the active file, as top-level rows are | not executed | FileExplorer.Item.ActiveChildHighlight | FileExplorer.Item.ChildRowsFor |

The third finding also shows that the sender's panel appends its own local copy and then
receives the server's broadcast as well. With the text payload the sender holds the message
twice (`Scenarios.ChatTextEchoedToSender`).
