/** The `connection` handler of server.js as an object: one Socket.IO socket
    whose room, registered handlers and per-join closures the event handlers
    update in place. Every method is proved to take the state to exactly
    what the matching function of module Session computes, so the properties
    proved there hold of the connection. */
module Server {
  import opened DocumentModel
  import opened Broadcast
  import Session

  class Connection {
    /** `socket.id`. */
    const id: ConnId
    /** `socket.userId`, read by `save-version`; server.js never assigns it. */
    const userId: Option<UserId>

    /** `socket.currentRoom`. */
    var currentRoom: Option<RoomId>
    /** The Socket.IO rooms this socket entered through `join-room`. The
        room Socket.IO names after the socket's own id is left out. */
    var rooms: set<RoomId>
    /** The listener arrays of `code-change`, `save-version`, `chat-message`. */
    var handlers: Session.Handlers
    /** One closure state per `join-room` that ran, in order. */
    var joins: seq<Session.JoinState>
    /** Everything this socket emitted, in order. */
    var outbox: seq<Message>

    function State(): Session.SessionState
      reads this
    {
      Session.SessionState(currentRoom, rooms, handlers, joins, outbox)
    }

    ghost predicate Valid()
      reads this
    {
      Session.Valid(State())
    }

    /** A fresh connection: no room, no handlers, nothing sent. */
    constructor (id: ConnId, userId: Option<UserId>)
      ensures this.id == id && this.userId == userId
      ensures State() == Session.Initial && Valid()
    {
      this.id := id;
      this.userId := userId;
      currentRoom := None;
      rooms := {};
      handlers := Session.NoHandlers;
      joins := [];
      outbox := [];
    }

    /** `cleanupRoom` (server.js:55-62). */
    method CleanupRoom()
      modifies this
      ensures old(Valid()) ==> Valid()
      ensures State() == Session.CleanupRoom(old(State()))
    {
      if currentRoom.Some? && currentRoom.value != "" {
        rooms := rooms - {currentRoom.value};
        handlers := handlers.RemoveAll(Session.CodeChangeEvent);
        handlers := handlers.RemoveAll(Session.ChatMessageEvent);
        handlers := handlers.RemoveAll(Session.SaveVersionEvent);
      }
    }

    /** The `join-room` handler (server.js:64-105). The store is only read. */
    method JoinRoom(roomId: RoomId, store: DocumentStore)
      requires Valid() && store.Valid()
      modifies this
      ensures Valid()
      ensures State() == Session.JoinRoom(old(State()), store.docs, roomId)
    {
      CleanupRoom();
      rooms := rooms + {roomId};
      currentRoom := Some(roomId);
      var doc;
      match store.Find(roomId) {
        case Some(stored) => doc := stored;
        case None => doc := Document(roomId, "", []);
      }
      outbox := outbox + [Message(ToSender, ReceiveCode, Code(doc.currentContent))];
      var k := |joins|;
      joins := joins + [Session.JoinState(roomId, doc, None)];
      handlers := handlers.On(Session.CodeChangeEvent, k);
      handlers := handlers.On(Session.SaveVersionEvent, k);
      handlers := handlers.On(Session.ChatMessageEvent, k);
    }

    /** A `code-change` event: each registered handler clears its join's
        timer and arms a new one for `code` (server.js:80-82). */
    method CodeChange(code: string)
      requires Valid()
      modifies this
      ensures Valid()
      ensures State() == Session.CodeChange(old(State()), code)
    {
      var ks := handlers.codeChange;
      for i := 0 to |ks|
        invariant handlers == old(handlers) && currentRoom == old(currentRoom)
        invariant rooms == old(rooms) && outbox == old(outbox)
        invariant joins == Session.ArmDebounce(old(joins), ks[..i], code)
      {
        assert ks[..i + 1][..i] == ks[..i];
        var k := ks[i];
        joins := joins[k := joins[k].(pending := Some(code))];
      }
      assert ks[..|ks|] == ks;
    }

    /** The timer of join `k` fires after its quiet period (server.js:82-86). */
    method QuietPeriodElapsed(k: nat, store: DocumentStore)
      requires Valid() && store.Valid() && k < |joins|
      modifies this, store
      ensures Valid() && store.Valid()
      ensures var a := Session.QuietPeriodElapsed(old(State()), old(store.docs), k);
        State() == a.session && store.docs == a.docs
    {
      match joins[k].pending {
        case None =>
        case Some(code) =>
          var j := joins[k];
          var doc := j.doc.(currentContent := code);
          store.Save(doc);
          joins := joins[k := Session.JoinState(j.roomId, doc, None)];
          outbox := outbox + [Message(ToRoomExceptSender(j.roomId), ReceiveCode, Code(code))];
      }
    }

    /** A `save-version` event: every registered handler unshifts a version
        onto its join's document, saves it and acknowledges (server.js:90-98). */
    method SaveVersion(store: DocumentStore, now: Timestamp)
      requires Valid() && store.Valid()
      modifies this, store
      ensures Valid() && store.Valid()
      ensures var a := Session.SaveVersion(old(State()), old(store.docs), userId, now);
        State() == a.session && store.docs == a.docs
    {
      var ks := handlers.saveVersion;
      ghost var s0, d0 := State(), store.docs;
      var js, out := joins, outbox;
      for i := 0 to |ks|
        invariant Session.After(s0.(joins := js, outbox := out), store.docs)
          == Session.SaveVersionEach(s0, d0, ks[..i], userId, now)
        invariant store.Valid()
        modifies store
      {
        Session.SaveVersionEachStep(s0, d0, ks, i, userId, now);
        var k := ks[i];
        var j := js[k];
        var v := NewVersion(j.doc.currentContent, userId, None, None, Some(now), now);
        var doc := j.doc.(versions := [v] + j.doc.versions);
        store.Save(doc);
        js := js[k := j.(doc := doc)];
        out := out + [Message(ToSender, VersionSaved, NoPayload)];
      }
      assert ks[..|ks|] == ks;
      joins, outbox := js, out;
      Session.SameShapeKeepsValid(s0, State());
    }

    /** A `chat-message` event: every registered handler stamps the message
        and sends it to its whole room (server.js:101-104). */
    method ChatMessage(user: string, message: string, now: Timestamp)
      requires Valid()
      modifies this
      ensures Valid()
      ensures State() == Session.ChatMessage(old(State()), user, message, now)
    {
      var ks := handlers.chatMessage;
      ghost var s0 := State();
      for i := 0 to |ks|
        invariant State() == s0.(outbox := Session.ChatEach(s0.joins, s0.outbox, ks[..i], user, message, now))
      {
        assert ks[..i + 1][..i] == ks[..i];
        var k := ks[i];
        outbox := outbox + [Message(ToRoom(joins[k].roomId), ReceiveMessage, ChatLine(user, message, now))];
      }
      assert ks[..|ks|] == ks;
      Session.SameShapeKeepsValid(s0, State());
    }

    /** `disconnect` (server.js:107) runs `cleanupRoom`. A timer armed
        before it may still fire afterwards: the state stays valid. */
    method Disconnect()
      modifies this
      ensures old(Valid()) ==> Valid()
      ensures State() == Session.CleanupRoom(old(State()))
    {
      CleanupRoom();
    }
  }
}
