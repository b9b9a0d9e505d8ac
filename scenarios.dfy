/**
 * End-to-end runs across the client pages and the collaboration server: one project "p1"
 * owned by Ann ("u1") with Bob ("u2") as editor, each connected on one socket; Eve ("u3")
 * has an account but no part in the project.
 */
module Scenarios {
  import opened Wrappers
  import opened Store
  import opened SocketService
  import Strings
  import EditorPage
  import CollaborationPanel

  /** The tables of the runs. */
  function TwoUserTables(): (t: Tables)
    ensures Consistent(t)
  {
    Tables(
      map["u1" := User("u1", "Ann", "ann@example.com", None, "USER"),
          "u2" := User("u2", "Bob", "bob@example.com", None, "USER"),
          "u3" := User("u3", "Eve", "eve@example.com", None, "USER")],
      map["p1" := Project("p1", "Demo", None, false, "u1", [Collaboration("u2", Editor)], 0, 0, 0)],
      map[], map[], [])
  }

  /** Ann and Bob connected and in the room of "p1". */
  method TwoMembers() returns (db: Database, server: CollabServer)
    ensures fresh(db) && fresh(server) && server.db == db
    ensures server.Valid() && db.tables == TwoUserTables()
    ensures server.sessions == map["s1" := TwoUserTables().users["u1"], "s2" := TwoUserTables().users["u2"]]
    ensures server.Members(RoomOf("p1")) == {"s1", "s2"}
  {
    db := new Database(TwoUserTables());
    server := new CollabServer(db);
    var a1 := server.Handshake("s1", Some("token-1"), Some("u1"), false);
    var a2 := server.Handshake("s2", Some("token-2"), Some("u2"), false);
    Access.AccessHierarchy(db.tables.projects, "p1", "u2");
    assert Collaboration("u2", Editor) == db.tables.projects["p1"].collaborations[0];
    JoinBoth(server, "p1", "s1", "s2");
  }

  /** Two readers of a project whose room is empty join it one after the other. */
  method JoinBoth(server: CollabServer, projectId: ProjectId, s1: SocketId, s2: SocketId)
    requires server.Valid() && s1 in server.sessions && s2 in server.sessions
    requires Access.CanRead(server.db.tables.projects, projectId, server.sessions[s1].id)
    requires Access.CanRead(server.db.tables.projects, projectId, server.sessions[s2].id)
    requires server.Members(RoomOf(projectId)) == {}
    modifies server
    ensures server.Valid() && server.sessions == old(server.sessions)
    ensures server.Members(RoomOf(projectId)) == {s1, s2}
  {
    server.JoinProject(s1, projectId, NoFault);
    server.JoinProject(s2, projectId, NoFault);
  }

  /** Ann opens main.py on /editor/p1 and types: the code change her page sends. */
  method AnnTypes() returns (out: EditorPage.OutgoingCodeChange)
    ensures out == EditorPage.OutgoingCodeChange("p1", "main.py", "x = 1", Some("u1"))
  {
    var ann := new EditorPage.Page(Some("p1"), Some("u1"), true);
    ann.SelectFile("main.py");
    ann.HandleEditorChange(Some("x = 1"));
    out := ann.sent[0];
  }

  /** The server stores Ann's change and relays it to Bob alone. */
  method ServerRelaysEdit() returns (relayed: Emission)
    ensures relayed == Emission({"s2"}, CodeChanged("main.py", "x = 1", "u1", "Ann", 7))
  {
    var db, server := TwoMembers();
    var out := AnnTypes();
    var data := CodePayload(out.projectId, out.filePath, out.content, out.userId.value);
    assert Access.CanWrite(db.tables.projects, "p1", "u1");
    relayed := RelayEdit(server, "s1", data, 7);
  }

  /** An authorized edit that the store accepts is relayed to the room's other members. */
  method RelayEdit(server: CollabServer, sid: SocketId, data: CodePayload, now: Time) returns (relayed: Emission)
    requires server.Valid() && sid in server.sessions
    requires Access.CanWrite(server.db.tables.projects, data.projectId, data.userId)
    modifies server, server.db
    ensures relayed == Emission(old(server.Members(RoomOf(data.projectId))) - {sid},
      CodeChanged(data.filePath, data.content, data.userId, old(server.sessions[sid].name), now))
  {
    server.CodeChange(sid, data, now, NoFault);
    relayed := server.outbox[|server.outbox| - 1];
  }

  /**
   * Bob's editor on /editor/p1 drops the relayed change as the payload is written, and takes
   * it when the payload names the project.
   */
  method BobReceivesEdit() returns (bobAsWritten: string, bobTagged: string)
    ensures bobAsWritten == ""
    ensures bobTagged == "x = 1"
  {
    var relayed := ServerRelaysEdit();
    var bob := new EditorPage.Page(Some("p1"), Some("u2"), true);
    bob.OnRemoteCodeChange(EditorPage.ReadServerEvent(relayed.event));
    bobAsWritten := bob.currentCode;
    bob.OnRemoteCodeChange(EditorPage.ReadTaggedEvent(relayed.event, "p1"));
    bobTagged := bob.currentCode;
  }

  /** Ann's panel with "hello" sent: the entry it shows and the one payload it emitted. */
  method PanelSendsHello() returns (panel: CollaborationPanel.Panel, entry: CollaborationPanel.ChatEntry)
    ensures fresh(panel)
    ensures panel.chatMessages == [entry] && entry.message == "hello"
    ensures panel.sent == [CollaborationPanel.PanelPayload(Some("p1"), entry)]
  {
    panel := new CollaborationPanel.Panel(Some("p1"), Some("u1"), Some("Ann"), true);
    assert Strings.Trim("hello") != "" by {
      Strings.TrimEmptyIffAllSpace("hello");
      assert !Strings.IsSpace("hello"[0]);
    }
    entry := TypeAndSend(panel, "hello", "m1", "2024-01-01T00:00:00.000Z");
  }

  /** Typing a non-blank text into a fresh connected panel and sending it. */
  method TypeAndSend(panel: CollaborationPanel.Panel, text: string, id: string, timestamp: string)
    returns (entry: CollaborationPanel.ChatEntry)
    requires panel.connected && Strings.Trim(text) != ""
    requires panel.chatMessages == [] && panel.sent == []
    modifies panel
    ensures panel.chatMessages == [entry] && entry.message == text
    ensures panel.sent == [CollaborationPanel.PanelPayload(panel.projectId, entry)]
  {
    panel.EditMessage(text);
    panel.SendMessage(id, timestamp);
    entry := panel.chatMessages[0];
  }

  /**
   * As written, the server reads the panel's entry object as the message: it stores nothing
   * and answers Ann alone with an error.
   */
  method ChatFromPanelRejected() returns (reply: Emission, rows: nat)
    ensures reply == Emission({"s1"}, Error("Failed to send message")) && rows == 0
  {
    var db, server := TwoMembers();
    var panel, entry := PanelSendsHello();
    assert Access.CanRead(db.tables.projects, "p1", "u1");
    CollaborationPanel.PanelPayloadNeverStored(Some("p1"), entry);
    server.ChatMessage("s1", "p1", Member(panel.sent[0], "message"), "c1", 9, NoFault);
    reply := server.outbox[|server.outbox| - 1];
    rows := |db.tables.chat|;
  }

  /**
   * With the text as the payload's message it is stored once and sent to both members; Ann's
   * panel then lists it twice, her local copy and the echo.
   */
  method ChatTextEchoedToSender() returns (recipients: set<SocketId>, rows: nat, annEntries: nat)
    ensures recipients == {"s1", "s2"} && rows == 1 && annEntries == 2
  {
    var db, server := TwoMembers();
    var panel, entry := PanelSendsHello();
    assert Access.CanRead(db.tables.projects, "p1", "u1");
    var payload := CollaborationPanel.TextPayload(Some("p1"), entry.message);
    CollaborationPanel.TextPayloadStored(Some("p1"), entry.message);
    server.ChatMessage("s1", "p1", Member(payload, "message"), "c1", 9, NoFault);
    var posted := server.outbox[|server.outbox| - 1];
    recipients := posted.to;
    rows := |db.tables.chat|;
    var e := posted.event;
    panel.OnChatMessage(CollaborationPanel.ChatEntry(e.id, e.userId, e.userName, e.message, "2024-01-01T00:00:00.000Z", e.kind));
    annEntries := |panel.chatMessages|;
  }

  /** A stranger's socket is refused the room and only it hears why. */
  method StrangerRefused() returns (reply: Emission, members: set<SocketId>)
    ensures reply == Emission({"s3"}, Error("Access denied to project"))
    ensures members == {"s1", "s2"}
  {
    var db, server := TwoMembers();
    var a3 := server.Handshake("s3", Some("token-3"), Some("u3"), false);
    Access.StrangerHasNoAccess(db.tables.projects, "p1", "u3");
    server.JoinProject("s3", "p1", NoFault);
    reply := server.outbox[|server.outbox| - 1];
    members := server.Members(RoomOf("p1"));
  }
}
