/**
 * The real-time collaboration server: the handshake and the per-socket event handlers. The
 * server's state is the session table (socket -> authenticated user), the room table
 * (room name -> member sockets), the shared database, and the outbox of emitted events with
 * their recipient sets:
 *   `socket.emit`          -> the sender only,
 *   `socket.to(room).emit` -> the room's members except the sender,
 *   `io.to(room).emit`     -> every member of the room.
 * Each handler runs to completion before the next one starts.
 */
module SocketService {
  import opened Wrappers
  import opened Store
  import opened Access
  import Strings

  type SocketId = string

  datatype Position = Position(line: int, column: int)

  /** One entry of the `collaborators-updated` list. */
  datatype CollaboratorView = CollaboratorView(id: UserId, name: string, avatar: Option<string>, role: string, isOnline: bool)

  datatype Event =
    | Error(message: string)
    | UserJoined(userId: UserId, userName: string, userAvatar: Option<string>)
    | CollaboratorsUpdated(collaborators: seq<CollaboratorView>)
    | UserLeft(userId: UserId, userName: string)
    | CodeChanged(filePath: string, content: string, userId: UserId, userName: string, timestamp: Time)
    | CursorMoved(userId: UserId, userName: string, filePath: string, position: Position, timestamp: Time)
    | ChatPosted(id: string, userId: UserId, userName: string, userAvatar: Option<string>, message: string,
                 timestamp: Time, kind: string)
    | UserTyping(userId: UserId, userName: string, filePath: string, isTyping: bool)

  datatype Emission = Emission(to: set<SocketId>, event: Event)

  /** The payloads the client sends. `userId` in them is whatever the client put there. */
  datatype CodePayload = CodePayload(projectId: ProjectId, filePath: string, content: string, userId: UserId)
  datatype CursorPayload = CursorPayload(projectId: ProjectId, filePath: string, position: Position, userId: UserId)

  /** A JSON value as a socket.io payload carries it; a key set to `undefined` is not sent. */
  datatype Json = JNull | JBool(b: bool) | JString(s: string) | JObject(fields: map<string, Json>)

  /** `data[key]` on a received payload: None (undefined) unless it is an object holding `key`. */
  function Member(j: Json, key: string): Option<Json> {
    if j.JObject? && key in j.fields then Some(j.fields[key]) else None
  }

  /**
   * What `chatMessage.create` makes of the payload's `message` field for the text column:
   * a string is stored as it is; undefined or any other JSON value makes the call throw.
   */
  function StoredText(message: Option<Json>): (r: Option<string>)
    ensures r.Some? <==> message.Some? && message.value.JString?
    ensures r.Some? ==> message == Some(JString(r.value))
  {
    if message.Some? && message.value.JString? then Some(message.value.s) else None
  }

  datatype Admission = Admitted(user: User) | Refused(message: string)

  /** The room of a project. */
  function RoomOf(projectId: ProjectId): (room: string)
    ensures Strings.StartsWith(room, "project:") && room[8..] == projectId
  {
    "project:" + projectId
  }

  /** Different projects never share a room. */
  lemma RoomOfInjective(a: ProjectId, b: ProjectId)
    ensures RoomOf(a) == RoomOf(b) <==> a == b
  {
    if RoomOf(a) == RoomOf(b) {
      assert a == RoomOf(a)[8..];
    }
  }

  /**
   * The handshake decision: a present, non-empty token that verifies (`verified`) to the id of
   * an existing user admits the socket as that user; anything else refuses it.
   */
  function HandshakeVerdict(token: Option<string>, verified: Option<UserId>, users: map<UserId, User>,
                            lookupThrows: bool): (a: Admission)
    ensures a.Admitted? <==> token.Some? && token.value != "" && verified.Some? && !lookupThrows && verified.value in users
    ensures a.Admitted? ==> a.user == users[verified.value]
    ensures token.None? || token == Some("") ==> a == Refused("Authentication error: No token provided")
    ensures token.Some? && token.value != "" && (verified.None? || lookupThrows)
      ==> a == Refused("Authentication error: Invalid token")
    ensures token.Some? && token.value != "" && verified.Some? && !lookupThrows && verified.value !in users
      ==> a == Refused("Authentication error: User not found")
  {
    if token.None? || token.value == "" then Refused("Authentication error: No token provided")
    else if verified.None? || lookupThrows then Refused("Authentication error: Invalid token")
    else if verified.value !in users then Refused("Authentication error: User not found")
    else Admitted(users[verified.value])
  }

  /** The collaborator list sent to a joiner: one entry per collaboration row, all marked online. */
  function CollaboratorViews(collaborations: seq<Collaboration>, users: map<UserId, User>): (r: seq<CollaboratorView>)
    requires forall i :: 0 <= i < |collaborations| ==> collaborations[i].userId in users
    ensures |r| == |collaborations|
    ensures forall i :: 0 <= i < |r| ==>
      && r[i].id == collaborations[i].userId
      && r[i].name == users[collaborations[i].userId].name
      && r[i].avatar == users[collaborations[i].userId].avatar
      && r[i].role == RoleName(collaborations[i].role)
      && r[i].isOnline
  {
    seq(|collaborations|, i requires 0 <= i < |collaborations| =>
      var u := users[collaborations[i].userId];
      CollaboratorView(collaborations[i].userId, u.name, u.avatar, RoleName(collaborations[i].role), true))
  }

  /** The roles in the collaborator list are the database's upper-case enum names. */
  lemma ViewRolesAreUpperCase(collaborations: seq<Collaboration>, users: map<UserId, User>)
    requires forall i :: 0 <= i < |collaborations| ==> collaborations[i].userId in users
    ensures forall v | v in CollaboratorViews(collaborations, users) :: v.role in {"OWNER", "EDITOR", "VIEWER"}
  {
    var r := CollaboratorViews(collaborations, users);
    forall v | v in r
      ensures v.role in {"OWNER", "EDITOR", "VIEWER"}
    {
      var i :| 0 <= i < |r| && r[i] == v;
      assert v.role == RoleName(collaborations[i].role);
    }
  }

  /** The room table after `sid` leaves `room`: an emptied room disappears, other rooms stay. */
  function WithoutMember(rooms: map<string, set<SocketId>>, room: string, sid: SocketId): (r: map<string, set<SocketId>>)
    ensures room in r ==> room in rooms && r[room] == rooms[room] - {sid} && r[room] != {}
    ensures room !in r ==> room !in rooms || rooms[room] <= {sid}
    ensures forall other :: other != room ==> (other in r <==> other in rooms) && (other in r ==> r[other] == rooms[other])
  {
    if room !in rooms then rooms
    else if rooms[room] - {sid} == {} then rooms - {room}
    else rooms[room := rooms[room] - {sid}]
  }

  /** The room table after a disconnect: the socket leaves every room; emptied rooms disappear. */
  function WithoutSocket(rooms: map<string, set<SocketId>>, sid: SocketId): (r: map<string, set<SocketId>>)
    ensures forall room :: room in r <==> room in rooms && rooms[room] - {sid} != {}
    ensures forall room :: room in r ==> r[room] == rooms[room] - {sid}
  {
    map room | room in rooms && rooms[room] - {sid} != {} :: rooms[room] - {sid}
  }

  class CollabServer {
    const db: Database
    /** `socket.userId` / `socket.user` of every admitted socket. */
    var sessions: map<SocketId, User>
    var rooms: map<string, set<SocketId>>
    var outbox: seq<Emission>

    /** Rooms are never empty and hold only admitted sockets. */
    ghost predicate Valid()
      reads this, db
    {
      && db.Valid()
      && (forall room :: room in rooms ==> rooms[room] != {} && rooms[room] <= sessions.Keys)
    }

    function Members(room: string): (m: set<SocketId>)
      reads this
    {
      if room in rooms then rooms[room] else {}
    }

    constructor (db: Database)
      requires db.Valid()
      ensures Valid() && this.db == db
      ensures sessions == map[] && rooms == map[] && outbox == []
    {
      this.db := db;
      sessions := map[];
      rooms := map[];
      outbox := [];
    }

    /** The connection middleware: only an admitted socket gets a session. */
    method Handshake(sid: SocketId, token: Option<string>, verified: Option<UserId>, lookupThrows: bool)
      returns (a: Admission)
      requires Valid() && sid !in sessions
      modifies this
      ensures Valid()
      ensures a == HandshakeVerdict(token, verified, db.tables.users, lookupThrows)
      ensures sessions == if a.Admitted? then old(sessions)[sid := a.user] else old(sessions)
      ensures rooms == old(rooms) && outbox == old(outbox)
    {
      a := HandshakeVerdict(token, verified, db.tables.users, lookupThrows);
      if a.Admitted? {
        sessions := sessions[sid := a.user];
      }
    }

    /**
     * `join-project`: a reader of the project enters its room, the other members hear
     * `user-joined`, and the joiner alone gets the collaborator list. A refused or failed
     * lookup answers the sender alone and leaves the rooms as they were.
     */
    method JoinProject(sid: SocketId, projectId: ProjectId, fault: StoreFault)
      requires Valid() && sid in sessions
      modifies this
      ensures Valid() && sessions == old(sessions)
      ensures var u := sessions[sid];
        var room := RoomOf(projectId);
        if fault == ThrowsAt(1) then
          rooms == old(rooms) && outbox == old(outbox) + [Emission({sid}, Error("Failed to join project"))]
        else if !CanRead(db.tables.projects, projectId, u.id) then
          rooms == old(rooms) && outbox == old(outbox) + [Emission({sid}, Error("Access denied to project"))]
        else
          && rooms == old(rooms)[room := old(Members(room)) + {sid}]
          && outbox == old(outbox) + [Emission(old(Members(room)) - {sid}, UserJoined(u.id, u.name, u.avatar))] +
               [if fault == ThrowsAt(2) then Emission({sid}, Error("Failed to join project"))
                else Emission({sid}, CollaboratorsUpdated(
                       CollaboratorViews(db.tables.projects[projectId].collaborations, db.tables.users)))]
    {
      var u := sessions[sid];
      if fault == ThrowsAt(1) {
        outbox := outbox + [Emission({sid}, Error("Failed to join project"))];
        return;
      }
      if !CanRead(db.tables.projects, projectId, u.id) {
        outbox := outbox + [Emission({sid}, Error("Access denied to project"))];
        return;
      }
      var room := RoomOf(projectId);
      var others := Members(room) - {sid};
      rooms := rooms[room := Members(room) + {sid}];
      outbox := outbox + [Emission(others, UserJoined(u.id, u.name, u.avatar))];
      if fault == ThrowsAt(2) {
        outbox := outbox + [Emission({sid}, Error("Failed to join project"))];
        return;
      }
      var p := db.tables.projects[projectId];
      outbox := outbox + [Emission({sid}, CollaboratorsUpdated(CollaboratorViews(p.collaborations, db.tables.users)))];
    }

    /**
     * `leave-project`: no access check; the socket leaves the room and the remaining members hear
     * `user-left`, whether or not the socket was a member.
     */
    method LeaveProject(sid: SocketId, projectId: ProjectId)
      requires Valid() && sid in sessions
      modifies this
      ensures Valid() && sessions == old(sessions)
      ensures rooms == WithoutMember(old(rooms), RoomOf(projectId), sid)
      ensures sid !in Members(RoomOf(projectId))
      ensures outbox == old(outbox) +
        [Emission(old(Members(RoomOf(projectId))) - {sid}, UserLeft(sessions[sid].id, sessions[sid].name))]
    {
      var room := RoomOf(projectId);
      var others := Members(room) - {sid};
      rooms := WithoutMember(rooms, room, sid);
      var u := sessions[sid];
      outbox := outbox + [Emission(others, UserLeft(u.id, u.name))];
    }

    /**
     * `code-change`: access is decided by the payload's `userId`, not by the socket's user. On
     * success the file is upserted, the project's lastModified touched, and only then the change
     * goes to the other members. A refusal or a store failure answers the sender alone; a failed
     * touch keeps the file write.
     */
    method CodeChange(sid: SocketId, data: CodePayload, now: Time, fault: StoreFault)
      requires Valid() && sid in sessions
      modifies this, db
      ensures Valid() && sessions == old(sessions) && rooms == old(rooms)
      ensures var t := old(db.tables);
        var key := FileKey(data.projectId, data.filePath);
        var failed := old(outbox) + [Emission({sid}, Error("Failed to update code"))];
        if fault == ThrowsAt(1) then db.tables == t && outbox == failed
        else if !CanWrite(t.projects, data.projectId, data.userId) then
          db.tables == t && outbox == old(outbox) + [Emission({sid}, Error("Access denied to project"))]
        else if fault == ThrowsAt(2) then db.tables == t && outbox == failed
        else if fault == ThrowsAt(3) then
          db.tables == t.(files := Upsert(t.files, key, data.content, now)) && outbox == failed
        else
          && db.tables == t.(files := Upsert(t.files, key, data.content, now),
                             projects := t.projects[data.projectId := t.projects[data.projectId].(lastModified := now)])
          && outbox == old(outbox) + [Emission(Members(RoomOf(data.projectId)) - {sid},
                CodeChanged(data.filePath, data.content, data.userId, sessions[sid].name, now))]
    {
      var failed := Emission({sid}, Error("Failed to update code"));
      if fault == ThrowsAt(1) {
        outbox := outbox + [failed];
        return;
      }
      if !CanWrite(db.tables.projects, data.projectId, data.userId) {
        outbox := outbox + [Emission({sid}, Error("Access denied to project"))];
        return;
      }
      if fault == ThrowsAt(2) {
        outbox := outbox + [failed];
        return;
      }
      var key := FileKey(data.projectId, data.filePath);
      var t := db.tables;
      UpsertConsistent(t, key, data.content, now);
      db.tables := t.(files := Upsert(t.files, key, data.content, now));
      if fault == ThrowsAt(3) {
        outbox := outbox + [failed];
        return;
      }
      var t2 := db.tables;
      TouchConsistent(t2, data.projectId, now);
      db.tables := t2.(projects := t2.projects[data.projectId := t2.projects[data.projectId].(lastModified := now)]);
      var event := CodeChanged(data.filePath, data.content, data.userId, sessions[sid].name, now);
      outbox := outbox + [Emission(Members(RoomOf(data.projectId)) - {sid}, event)];
    }

    /**
     * `cursor-position`: no access check; the one row of (user, project, file) gets the new
     * position and the other members hear it. A store failure is only logged.
     */
    method CursorPosition(sid: SocketId, data: CursorPayload, now: Time, fault: StoreFault)
      requires Valid() && sid in sessions
      modifies this, db
      ensures Valid() && sessions == old(sessions) && rooms == old(rooms)
      ensures var t := old(db.tables);
        if fault == ThrowsAt(1) then db.tables == t && outbox == old(outbox)
        else
          && db.tables == t.(cursors := t.cursors[CursorKey(data.userId, data.projectId, data.filePath)
                                                  := CursorRow(data.position.line, data.position.column, now)])
          && outbox == old(outbox) + [Emission(Members(RoomOf(data.projectId)) - {sid},
                CursorMoved(data.userId, sessions[sid].name, data.filePath, data.position, now))]
    {
      if fault == ThrowsAt(1) {
        return;
      }
      var key := CursorKey(data.userId, data.projectId, data.filePath);
      db.tables := db.tables.(cursors := db.tables.cursors[key := CursorRow(data.position.line, data.position.column, now)]);
      var event := CursorMoved(data.userId, sessions[sid].name, data.filePath, data.position, now);
      outbox := outbox + [Emission(Members(RoomOf(data.projectId)) - {sid}, event)];
    }

    /**
     * `chat-message`: a reader of the project (the socket's own user) posts; the row is stored
     * with the socket's user as author and the message goes to every member, the sender
     * included. `message` is the payload's field as received; anything but a string is
     * rejected by the store.
     */
    method ChatMessage(sid: SocketId, projectId: ProjectId, message: Option<Json>, newId: string, now: Time, fault: StoreFault)
      requires Valid() && sid in sessions
      requires newId !in ChatIds(db.tables.chat)
      modifies this, db
      ensures Valid() && sessions == old(sessions) && rooms == old(rooms)
      ensures var t := old(db.tables);
        var u := sessions[sid];
        var failed := old(outbox) + [Emission({sid}, Error("Failed to send message"))];
        if fault == ThrowsAt(1) then db.tables == t && outbox == failed
        else if !CanRead(t.projects, projectId, u.id) then
          db.tables == t && outbox == old(outbox) + [Emission({sid}, Error("Access denied to project"))]
        else if fault == ThrowsAt(2) || StoredText(message).None? then db.tables == t && outbox == failed
        else
          var text := StoredText(message).value;
          && db.tables == t.(chat := t.chat + [ChatRow(newId, u.id, projectId, text, "MESSAGE", now)])
          && outbox == old(outbox) + [Emission(Members(RoomOf(projectId)),
                ChatPosted(newId, u.id, u.name, u.avatar, text, now, "MESSAGE"))]
    {
      var u := sessions[sid];
      var failed := Emission({sid}, Error("Failed to send message"));
      if fault == ThrowsAt(1) {
        outbox := outbox + [failed];
        return;
      }
      if !CanRead(db.tables.projects, projectId, u.id) {
        outbox := outbox + [Emission({sid}, Error("Access denied to project"))];
        return;
      }
      var stored := StoredText(message);
      if fault == ThrowsAt(2) || stored.None? {
        outbox := outbox + [failed];
        return;
      }
      var row := ChatRow(newId, u.id, projectId, stored.value, "MESSAGE", now);
      var t := db.tables;
      db.tables := t.(chat := t.chat + [row]);
      var event := ChatPosted(newId, u.id, u.name, u.avatar, stored.value, now, "MESSAGE");
      outbox := outbox + [Emission(Members(RoomOf(projectId)), event)];
    }

    /** `typing-start`: the other members hear that the user types; no check, no write. */
    method TypingStart(sid: SocketId, projectId: ProjectId, filePath: string)
      requires Valid() && sid in sessions
      modifies this
      ensures Valid() && sessions == old(sessions) && rooms == old(rooms)
      ensures outbox == old(outbox) + [Emission(Members(RoomOf(projectId)) - {sid},
        UserTyping(sessions[sid].id, sessions[sid].name, filePath, true))]
    {
      var u := sessions[sid];
      outbox := outbox + [Emission(Members(RoomOf(projectId)) - {sid}, UserTyping(u.id, u.name, filePath, true))];
    }

    /** `typing-stop`: as `typing-start`, with `isTyping` false. */
    method TypingStop(sid: SocketId, projectId: ProjectId, filePath: string)
      requires Valid() && sid in sessions
      modifies this
      ensures Valid() && sessions == old(sessions) && rooms == old(rooms)
      ensures outbox == old(outbox) + [Emission(Members(RoomOf(projectId)) - {sid},
        UserTyping(sessions[sid].id, sessions[sid].name, filePath, false))]
    {
      var u := sessions[sid];
      outbox := outbox + [Emission(Members(RoomOf(projectId)) - {sid}, UserTyping(u.id, u.name, filePath, false))];
    }

    /** `disconnect`: the transport drops the socket from its rooms; nobody is told. */
    method Disconnect(sid: SocketId)
      requires Valid() && sid in sessions
      modifies this
      ensures Valid()
      ensures sessions == old(sessions) - {sid}
      ensures rooms == WithoutSocket(old(rooms), sid)
      ensures forall room :: sid !in Members(room)
      ensures outbox == old(outbox)
    {
      rooms := WithoutSocket(rooms, sid);
      sessions := sessions - {sid};
    }
  }
}
