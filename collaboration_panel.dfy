/**
 * The collaboration side panel: the collaborator list and the chat list it keeps from socket
 * events, the chat input, and the role badges.
 */
module CollaborationPanel {
  import opened Wrappers
  import Strings
  import Store
  import SocketService

  /** A collaborator entry; the cursor fields are filled in by `cursor-position` events. */
  datatype Collaborator = Collaborator(
    id: string,
    name: string,
    avatar: Option<string>,
    role: string,
    isOnline: bool,
    cursorPosition: Option<SocketService.Position>,
    currentFile: Option<string>)

  datatype ChatEntry = ChatEntry(id: string, userId: string, userName: string, message: string, timestamp: string, kind: string)

  /** The fields of a `cursor-position` event the panel reads. */
  datatype CursorUpdate = CursorUpdate(userId: string, filePath: string, position: SocketService.Position)

  /**
   * The list after a cursor event: entries whose id is the event's user get the position and
   * file; every other entry, the length and the order stay as they were.
   */
  function WithCursor(list: seq<Collaborator>, data: CursorUpdate): (r: seq<Collaborator>)
    ensures |r| == |list|
    ensures forall i :: 0 <= i < |r| ==> r[i].id == list[i].id
    ensures forall i :: 0 <= i < |r| && list[i].id != data.userId ==> r[i] == list[i]
    ensures forall i :: 0 <= i < |r| && list[i].id == data.userId ==>
      r[i] == list[i].(cursorPosition := Some(data.position), currentFile := Some(data.filePath))
  {
    seq(|list|, i requires 0 <= i < |list| =>
      if list[i].id == data.userId
      then list[i].(cursorPosition := Some(data.position), currentFile := Some(data.filePath))
      else list[i])
  }

  /** A cursor event for someone not in the list changes nothing. */
  lemma CursorOfStrangerIgnored(list: seq<Collaborator>, data: CursorUpdate)
    requires forall c | c in list :: c.id != data.userId
    ensures WithCursor(list, data) == list
  {
    var r := WithCursor(list, data);
    forall i | 0 <= i < |list|
      ensures r[i] == list[i]
    {
      assert list[i] in list;
    }
  }

  /** Replaying the same cursor event changes nothing more. */
  lemma WithCursorIdempotent(list: seq<Collaborator>, data: CursorUpdate)
    ensures WithCursor(WithCursor(list, data), data) == WithCursor(list, data)
  {
  }

  /** `getRoleColor`: owner yellow, editor blue, everything else gray. */
  function RoleColor(role: string): (color: string)
    ensures color == "yellow" <==> role == "owner"
    ensures color == "blue" <==> role == "editor"
    ensures color == "gray" <==> role != "owner" && role != "editor"
  {
    match role
    case "owner" => "yellow"
    case "editor" => "blue"
    case "viewer" => "gray"
    case _ => "gray"
  }

  datatype RoleIcon = Crown | Pencil | EyeIcon

  /** `getRoleIcon`: an icon for the three lower-case roles, none for anything else. */
  function RoleIconFor(role: string): (icon: Option<RoleIcon>)
    ensures icon.Some? <==> role in {"owner", "editor", "viewer"}
    ensures icon == Some(Crown) <==> role == "owner"
    ensures icon == Some(Pencil) <==> role == "editor"
    ensures icon == Some(EyeIcon) <==> role == "viewer"
  {
    match role
    case "owner" => Some(Crown)
    case "editor" => Some(Pencil)
    case "viewer" => Some(EyeIcon)
    case _ => None
  }

  /**
   * The server's role names are upper case, so as written every collaborator it lists is
   * shown gray and without an icon, owners and editors included.
   */
  lemma ServerRolesUnstyled(role: Store.Role)
    ensures RoleColor(Store.RoleName(role)) == "gray"
    ensures RoleIconFor(Store.RoleName(role)) == None
  {
  }

  /** The badge colour read case-insensitively, as the role names on the wire require. */
  function RoleColorOf(role: string): (color: string)
    ensures color == "yellow" <==> Strings.Lower(role) == "owner"
    ensures color == "blue" <==> Strings.Lower(role) == "editor"
    ensures color == "gray" <==> Strings.Lower(role) != "owner" && Strings.Lower(role) != "editor"
  {
    RoleColor(Strings.Lower(role))
  }

  /** The icon read case-insensitively. */
  function RoleIconOf(role: string): (icon: Option<RoleIcon>)
    ensures icon.None? <==> Strings.Lower(role) !in {"owner", "editor", "viewer"}
    ensures icon == Some(Crown) <==> Strings.Lower(role) == "owner"
    ensures icon == Some(Pencil) <==> Strings.Lower(role) == "editor"
    ensures icon == Some(EyeIcon) <==> Strings.Lower(role) == "viewer"
  {
    RoleIconFor(Strings.Lower(role))
  }

  /** Read case-insensitively, the server's three roles get their three intended badges. */
  lemma ServerRolesStyledCaseInsensitively()
    ensures RoleColorOf(Store.RoleName(Store.Owner)) == "yellow" && RoleIconOf(Store.RoleName(Store.Owner)) == Some(Crown)
    ensures RoleColorOf(Store.RoleName(Store.Editor)) == "blue" && RoleIconOf(Store.RoleName(Store.Editor)) == Some(Pencil)
    ensures RoleColorOf(Store.RoleName(Store.Viewer)) == "gray" && RoleIconOf(Store.RoleName(Store.Viewer)) == Some(EyeIcon)
  {
    assert Strings.Lower("OWNER") == "owner";
    assert Strings.Lower("EDITOR") == "editor";
    assert Strings.Lower("VIEWER") == "viewer";
  }

  /** Enter without Shift sends; any other key, or Shift+Enter, does not. */
  predicate SendsOnKey(key: string, shift: bool) {
    key == "Enter" && !shift
  }

  /** The entry as a JSON object: its six fields, all strings, with `type` for the kind. */
  function EntryJson(m: ChatEntry): (j: SocketService.Json)
    ensures j.JObject? && j.fields.Keys == {"id", "userId", "userName", "message", "timestamp", "type"}
    ensures forall k | k in j.fields :: j.fields[k].JString?
  {
    SocketService.JObject(map[
      "id" := SocketService.JString(m.id),
      "userId" := SocketService.JString(m.userId),
      "userName" := SocketService.JString(m.userName),
      "message" := SocketService.JString(m.message),
      "timestamp" := SocketService.JString(m.timestamp),
      "type" := SocketService.JString(m.kind)])
  }

  /** `fields[key]` is present and a string. */
  predicate HasText(fields: map<string, SocketService.Json>, key: string) {
    key in fields && fields[key].JString?
  }

  /** Reading an entry back from a JSON object whose six fields are strings. */
  function EntryOf(j: SocketService.Json): Option<ChatEntry> {
    if && j.JObject?
       && HasText(j.fields, "id") && HasText(j.fields, "userId") && HasText(j.fields, "userName")
       && HasText(j.fields, "message") && HasText(j.fields, "timestamp") && HasText(j.fields, "type")
    then Some(ChatEntry(j.fields["id"].s, j.fields["userId"].s, j.fields["userName"].s,
                        j.fields["message"].s, j.fields["timestamp"].s, j.fields["type"].s))
    else None
  }

  /** Nothing of the entry is lost on the wire. */
  lemma EntryRoundTrip(m: ChatEntry)
    ensures EntryOf(EntryJson(m)) == Some(m)
  {
  }

  /**
   * The `chat-message` payload the panel emits, `{ projectId, message }` with `message` the
   * whole local entry; an undefined `projectId` is not sent.
   */
  function PanelPayload(projectId: Option<string>, m: ChatEntry): (j: SocketService.Json)
    ensures SocketService.Member(j, "message") == Some(EntryJson(m))
    ensures SocketService.Member(j, "projectId") == if projectId.Some? then Some(SocketService.JString(projectId.value)) else None
  {
    var fields := map["message" := EntryJson(m)];
    SocketService.JObject(if projectId.Some? then fields["projectId" := SocketService.JString(projectId.value)] else fields)
  }

  /**
   * As written, whatever was typed, the server's `message` field is the entry object: the
   * store refuses it, though the entry itself arrives intact.
   */
  lemma PanelPayloadNeverStored(projectId: Option<string>, m: ChatEntry)
    ensures SocketService.StoredText(SocketService.Member(PanelPayload(projectId, m), "message")) == None
    ensures EntryOf(SocketService.Member(PanelPayload(projectId, m), "message").value) == Some(m)
  {
    EntryRoundTrip(m);
  }

  /** The payload the handler expects, `{ projectId, message: text }`. */
  function TextPayload(projectId: Option<string>, text: string): (j: SocketService.Json)
    ensures SocketService.Member(j, "projectId") == if projectId.Some? then Some(SocketService.JString(projectId.value)) else None
  {
    var fields := map["message" := SocketService.JString(text)];
    SocketService.JObject(if projectId.Some? then fields["projectId" := SocketService.JString(projectId.value)] else fields)
  }

  /** With the text as the payload's `message`, the store gets exactly the typed text. */
  lemma TextPayloadStored(projectId: Option<string>, text: string)
    ensures SocketService.StoredText(SocketService.Member(TextPayload(projectId, text), "message")) == Some(text)
  {
  }

  class Panel {
    const projectId: Option<string>
    /** The signed-in user's id and name. */
    const userId: Option<string>
    const userName: Option<string>
    /** Whether the socket exists. */
    const connected: bool

    var collaborators: seq<Collaborator>
    var chatMessages: seq<ChatEntry>
    var newMessage: string
    var sent: seq<SocketService.Json>

    constructor (projectId: Option<string>, userId: Option<string>, userName: Option<string>, connected: bool)
      ensures this.projectId == projectId && this.userId == userId && this.userName == userName
      ensures this.connected == connected
      ensures collaborators == [] && chatMessages == [] && newMessage == "" && sent == []
    {
      this.projectId := projectId;
      this.userId := userId;
      this.userName := userName;
      this.connected := connected;
      collaborators := [];
      chatMessages := [];
      newMessage := "";
      sent := [];
    }

    /** The entry `sendMessage` builds: author from the signed-in user ('' / 'Anonymous' if none). */
    function LocalEntry(id: string, timestamp: string, text: string): (m: ChatEntry)
      reads this
      ensures m.message == text && m.id == id && m.timestamp == timestamp && m.kind == "message"
      ensures m.userId == userId.GetOr("")
      ensures m.userName == if userName.Some? && userName.value != "" then userName.value else "Anonymous"
    {
      ChatEntry(id, userId.GetOr(""),
                if userName.Some? && userName.value != "" then userName.value else "Anonymous",
                text, timestamp, "message")
    }

    /** `collaborators-updated` replaces the whole list. */
    method OnCollaboratorsUpdated(list: seq<Collaborator>)
      modifies this
      ensures collaborators == list
      ensures chatMessages == old(chatMessages) && newMessage == old(newMessage) && sent == old(sent)
    {
      collaborators := list;
    }

    /** `chat-message` appends exactly the received entry at the end. */
    method OnChatMessage(m: ChatEntry)
      modifies this
      ensures chatMessages == old(chatMessages) + [m]
      ensures collaborators == old(collaborators) && newMessage == old(newMessage) && sent == old(sent)
    {
      chatMessages := chatMessages + [m];
    }

    /** `cursor-position` updates the matching collaborators only. */
    method OnCursorPosition(data: CursorUpdate)
      modifies this
      ensures collaborators == WithCursor(old(collaborators), data)
      ensures chatMessages == old(chatMessages) && newMessage == old(newMessage) && sent == old(sent)
    {
      collaborators := WithCursor(collaborators, data);
    }

    /** Typing in the chat input. */
    method EditMessage(text: string)
      modifies this
      ensures newMessage == text
      ensures collaborators == old(collaborators) && chatMessages == old(chatMessages) && sent == old(sent)
    {
      newMessage := text;
    }

    /**
     * `sendMessage`: nothing happens for blank input or without a socket; otherwise one
     * payload is emitted, the local entry appended and the input cleared.
     */
    method SendMessage(id: string, timestamp: string)
      modifies this
      ensures collaborators == old(collaborators)
      ensures Strings.Trim(old(newMessage)) == "" || !connected ==>
        chatMessages == old(chatMessages) && newMessage == old(newMessage) && sent == old(sent)
      ensures Strings.Trim(old(newMessage)) != "" && connected ==>
        var m := LocalEntry(id, timestamp, old(newMessage));
        && sent == old(sent) + [PanelPayload(projectId, m)]
        && chatMessages == old(chatMessages) + [m]
        && newMessage == ""
    {
      if Strings.Trim(newMessage) == "" || !connected {
        return;
      }
      var m := LocalEntry(id, timestamp, newMessage);
      sent := sent + [PanelPayload(projectId, m)];
      chatMessages := chatMessages + [m];
      newMessage := "";
    }

    /** `handleKeyPress`: Enter without Shift sends the message; other keys change nothing. */
    method HandleKeyPress(key: string, shift: bool, id: string, timestamp: string)
      modifies this
      ensures collaborators == old(collaborators)
      ensures !SendsOnKey(key, shift) || Strings.Trim(old(newMessage)) == "" || !connected ==>
        chatMessages == old(chatMessages) && newMessage == old(newMessage) && sent == old(sent)
      ensures SendsOnKey(key, shift) && Strings.Trim(old(newMessage)) != "" && connected ==>
        var m := LocalEntry(id, timestamp, old(newMessage));
        && sent == old(sent) + [PanelPayload(projectId, m)]
        && chatMessages == old(chatMessages) + [m]
        && newMessage == ""
    {
      if key == "Enter" && !shift {
        SendMessage(id, timestamp);
      }
    }
  }
}
