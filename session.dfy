/** One connection's room session (the `connection` handler of server.js) as
    a state machine over values. Each `join-room` creates its own closure
    state: the room id, the document loaded at that moment, and a debounce
    slot. The registered handlers point at the join whose closure they
    belong to. */
module Session {
  import opened DocumentModel
  import opened Broadcast

  /** The three events whose handlers `cleanupRoom` removes. */
  datatype Event = CodeChangeEvent | SaveVersionEvent | ChatMessageEvent

  /** The handlers registered on the socket for each of the three events, in
      registration order, each named by the join whose closure it is (an
      event emitter keeps one listener array per event). */
  datatype Handlers = Handlers(codeChange: seq<nat>, saveVersion: seq<nat>, chatMessage: seq<nat>)
  {
    /** The handlers that run, in order, when `e` arrives. */
    function Of(e: Event): seq<nat>
    {
      match e
      case CodeChangeEvent => codeChange
      case SaveVersionEvent => saveVersion
      case ChatMessageEvent => chatMessage
    }

    /** `socket.on(e, ...)`: the handler of join `k` is appended for `e`. */
    function On(e: Event, k: nat): (h: Handlers)
      ensures h.Of(e) == Of(e) + [k]
      ensures forall e' :: e' != e ==> h.Of(e') == Of(e')
    {
      match e
      case CodeChangeEvent => this.(codeChange := codeChange + [k])
      case SaveVersionEvent => this.(saveVersion := saveVersion + [k])
      case ChatMessageEvent => this.(chatMessage := chatMessage + [k])
    }

    /** `socket.removeAllListeners(e)`. */
    function RemoveAll(e: Event): (h: Handlers)
      ensures h.Of(e) == []
      ensures forall e' :: e' != e ==> h.Of(e') == Of(e')
    {
      match e
      case CodeChangeEvent => this.(codeChange := [])
      case SaveVersionEvent => this.(saveVersion := [])
      case ChatMessageEvent => this.(chatMessage := [])
    }
  }

  const NoHandlers := Handlers([], [], [])

  /** The closure state of one `join-room`: `roomId`, `doc` and
      `changeTimeout`, the latter as the code its timer will commit. */
  datatype JoinState = JoinState(roomId: RoomId, doc: Document, pending: Option<string>)

  datatype SessionState = SessionState(
    currentRoom: Option<RoomId>,
    rooms: set<RoomId>,
    handlers: Handlers,
    joins: seq<JoinState>,
    outbox: seq<Message>)

  /** A session together with the document collection it writes to. */
  datatype After = After(session: SessionState, docs: Docs)

  /** A new connection: no room, no handlers, nothing sent. */
  const Initial := SessionState(None, {}, NoHandlers, [], [])

  /** JavaScript truthiness of `socket.currentRoom`: unset and "" are falsy. */
  predicate Truthy(room: Option<RoomId>)
  {
    room.Some? && room.value != ""
  }

  /** Every entry of `ks` names one of the first `n` joins. */
  ghost predicate Below(ks: seq<nat>, n: nat)
  {
    forall i :: 0 <= i < |ks| ==> ks[i] < n
  }

  /** Handlers name existing joins; each join's document is its room's. */
  ghost predicate Valid(s: SessionState)
  {
    && Below(s.handlers.codeChange, |s.joins|)
    && Below(s.handlers.saveVersion, |s.joins|)
    && Below(s.handlers.chatMessage, |s.joins|)
    && (forall i :: 0 <= i < |s.joins| ==> s.joins[i].doc.roomId == s.joins[i].roomId)
  }

  /** `t` differs from `s` at most in the documents, debounce slots and
      outgoing log of its joins. */
  ghost predicate SameShape(s: SessionState, t: SessionState)
  {
    && t.currentRoom == s.currentRoom && t.rooms == s.rooms && t.handlers == s.handlers
    && |t.joins| == |s.joins|
    && forall j :: 0 <= j < |s.joins| ==>
         && t.joins[j].roomId == s.joins[j].roomId
         && t.joins[j].doc.roomId == s.joins[j].doc.roomId
  }

  /** Leaves the current room and removes the three events' handlers. */
  function Detach(s: SessionState): (t: SessionState)
    requires s.currentRoom.Some?
    ensures t.handlers == NoHandlers
    ensures t.rooms == s.rooms - {s.currentRoom.value}
    ensures t.currentRoom == s.currentRoom && t.joins == s.joins && t.outbox == s.outbox
  {
    var h := s.handlers.RemoveAll(CodeChangeEvent).RemoveAll(ChatMessageEvent).RemoveAll(SaveVersionEvent);
    s.(rooms := s.rooms - {s.currentRoom.value}, handlers := h)
  }

  /** `cleanupRoom`: detaches only when `socket.currentRoom` is truthy, and
      leaves `currentRoom` itself as it was. */
  function CleanupRoom(s: SessionState): (t: SessionState)
    ensures t.currentRoom == s.currentRoom && t.joins == s.joins && t.outbox == s.outbox
    ensures Truthy(s.currentRoom) ==>
      t.rooms == s.rooms - {s.currentRoom.value} && t.handlers == NoHandlers
    ensures !Truthy(s.currentRoom) ==> t == s
  {
    if Truthy(s.currentRoom) then Detach(s) else s
  }

  /** The document a join works on: the stored one, or a new empty one. */
  function LoadOrCreate(docs: Docs, roomId: RoomId): (d: Document)
    requires WellKeyed(docs)
    ensures d.roomId == roomId
    ensures roomId in docs ==> d == docs[roomId]
    ensures roomId !in docs ==> d.currentContent == "" && d.versions == []
  {
    match FindOne(docs, roomId)
    case Some(stored) => stored
    case None => Document(roomId, "", [])
  }

  /** The part of `join-room` after the cleanup: join the room, load or
      create the document, send its content to the joiner, and register the
      `code-change`, `save-version` and `chat-message` handlers of the new
      join, in that order. */
  function Attach(c: SessionState, docs: Docs, roomId: RoomId): (t: SessionState)
    requires WellKeyed(docs)
  {
    var doc := LoadOrCreate(docs, roomId);
    var k := |c.joins|;
    c.(currentRoom := Some(roomId),
       rooms := c.rooms + {roomId},
       joins := c.joins + [JoinState(roomId, doc, None)],
       outbox := c.outbox + [Message(ToSender, ReceiveCode, Code(doc.currentContent))],
       handlers := c.handlers.On(CodeChangeEvent, k).On(SaveVersionEvent, k).On(ChatMessageEvent, k))
  }

  /** What the part after the cleanup does: the connection is in the joined
      room, one closure over the loaded or created document is added, its
      content goes to the joiner, and each event gets one more handler, that
      of the new closure, after the ones it had. */
  lemma AttachEffect(c: SessionState, docs: Docs, roomId: RoomId)
    requires WellKeyed(docs)
    ensures var t := Attach(c, docs, roomId);
      var doc := LoadOrCreate(docs, roomId);
      && t.currentRoom == Some(roomId) && t.rooms == c.rooms + {roomId}
      && t.joins == c.joins + [JoinState(roomId, doc, None)]
      && t.outbox == c.outbox + [Message(ToSender, ReceiveCode, Code(doc.currentContent))]
      && forall e :: t.handlers.Of(e) == c.handlers.Of(e) + [|c.joins|]
  {
  }

  /** `join-room`, as written. The store is only read: a new document is
      not saved until a commit or a version save. */
  function JoinRoom(s: SessionState, docs: Docs, roomId: RoomId): (t: SessionState)
    requires Valid(s) && WellKeyed(docs)
    ensures Valid(t)
    ensures t.currentRoom == Some(roomId) && roomId in t.rooms
    ensures |t.joins| == |s.joins| + 1
    ensures forall j :: 0 <= j < |s.joins| ==> t.joins[j] == s.joins[j]
  {
    Attach(CleanupRoom(s), docs, roomId)
  }

  /** The debounce slot of every join in `ks` now holds `code`; an earlier
      pending code in it is discarded (`clearTimeout`). */
  function ArmDebounce(joins: seq<JoinState>, ks: seq<nat>, code: string): (r: seq<JoinState>)
    requires Below(ks, |joins|)
    ensures |r| == |joins|
    ensures forall j :: 0 <= j < |joins| ==>
      r[j] == if j in ks then joins[j].(pending := Some(code)) else joins[j]
    decreases |ks|
  {
    if ks == [] then joins
    else
      var ks' := ks[..|ks| - 1];
      var k := ks[|ks| - 1];
      assert ks == ks' + [k];
      var p := ArmDebounce(joins, ks', code);
      p[k := p[k].(pending := Some(code))]
  }

  /** A `code-change` event: every registered handler rearms its own timer. */
  function CodeChange(s: SessionState, code: string): (t: SessionState)
    requires Valid(s)
    ensures SameShape(s, t) && Valid(t) && t.outbox == s.outbox
    ensures forall j :: 0 <= j < |s.joins| ==>
      t.joins[j] == if j in s.handlers.codeChange then s.joins[j].(pending := Some(code)) else s.joins[j]
  {
    s.(joins := ArmDebounce(s.joins, s.handlers.codeChange, code))
  }

  /** The quiet period of join `k` elapsed: its pending code, if any, is
      assigned to its document, saved, and sent to the rest of its room. */
  function QuietPeriodElapsed(s: SessionState, docs: Docs, k: nat): (a: After)
    requires k < |s.joins|
    ensures SameShape(s, a.session)
    ensures WellKeyed(docs) ==> WellKeyed(a.docs)
    ensures s.joins[k].pending.None? ==> a == After(s, docs)
    ensures s.joins[k].pending.Some? ==>
      var j := s.joins[k];
      var code := j.pending.value;
      && a.session.joins[k] == JoinState(j.roomId, j.doc.(currentContent := code), None)
      && a.docs == Saved(docs, a.session.joins[k].doc)
      && a.session.outbox == s.outbox + [Message(ToRoomExceptSender(j.roomId), ReceiveCode, Code(code))]
    ensures forall j :: 0 <= j < |s.joins| && j != k ==> a.session.joins[j] == s.joins[j]
  {
    match s.joins[k].pending
    case None => After(s, docs)
    case Some(code) =>
      var j := s.joins[k];
      var doc := j.doc.(currentContent := code);
      After(s.(joins := s.joins[k := JoinState(j.roomId, doc, None)],
               outbox := s.outbox + [Message(ToRoomExceptSender(j.roomId), ReceiveCode, Code(code))]),
            Saved(docs, doc))
  }

  /** The `save-version` handler of join `k`: unshift a version holding the
      join's current content, save, acknowledge to the sender. */
  function SaveVersionAt(s: SessionState, docs: Docs, k: nat, userId: Option<UserId>, now: Timestamp): (a: After)
    requires k < |s.joins|
    ensures SameShape(s, a.session)
    ensures WellKeyed(docs) ==> WellKeyed(a.docs)
    ensures var d := s.joins[k].doc;
      var d' := a.session.joins[k].doc;
      && |d'.versions| == |d.versions| + 1
      && d'.versions[0] == Version(d.currentContent, userId, None, None, now)
      && d'.versions[1..] == d.versions
      && d'.currentContent == d.currentContent && d'.roomId == d.roomId
      && a.session.joins[k].pending == s.joins[k].pending
      && a.docs == Saved(docs, d')
      && a.session.outbox == s.outbox + [Message(ToSender, VersionSaved, NoPayload)]
    ensures forall j :: 0 <= j < |s.joins| && j != k ==> a.session.joins[j] == s.joins[j]
  {
    var j := s.joins[k];
    var v := NewVersion(j.doc.currentContent, userId, None, None, Some(now), now);
    var doc := j.doc.(versions := [v] + j.doc.versions);
    After(s.(joins := s.joins[k := j.(doc := doc)],
             outbox := s.outbox + [Message(ToSender, VersionSaved, NoPayload)]),
          Saved(docs, doc))
  }

  /** The `save-version` handlers of the joins `ks`, run in order. */
  function SaveVersionEach(s: SessionState, docs: Docs, ks: seq<nat>, userId: Option<UserId>, now: Timestamp): (a: After)
    requires Below(ks, |s.joins|)
    ensures SameShape(s, a.session)
    ensures WellKeyed(docs) ==> WellKeyed(a.docs)
    decreases |ks|
  {
    if ks == [] then After(s, docs)
    else
      var p := SaveVersionEach(s, docs, ks[..|ks| - 1], userId, now);
      SaveVersionAt(p.session, p.docs, ks[|ks| - 1], userId, now)
  }

  /** Running one more handler extends the run by one `SaveVersionAt`. */
  lemma SaveVersionEachStep(s: SessionState, docs: Docs, ks: seq<nat>, i: nat, userId: Option<UserId>, now: Timestamp)
    requires Below(ks, |s.joins|) && i < |ks|
    ensures Below(ks[..i], |s.joins|) && Below(ks[..i + 1], |s.joins|)
    ensures var p := SaveVersionEach(s, docs, ks[..i], userId, now);
      && ks[i] < |p.session.joins|
      && SaveVersionEach(s, docs, ks[..i + 1], userId, now) == SaveVersionAt(p.session, p.docs, ks[i], userId, now)
  {
    assert ks[..i + 1][..i] == ks[..i];
  }

  /** A `save-version` event. */
  function SaveVersion(s: SessionState, docs: Docs, userId: Option<UserId>, now: Timestamp): (a: After)
    requires Valid(s)
    ensures SameShape(s, a.session)
    ensures WellKeyed(docs) ==> WellKeyed(a.docs)
  {
    SaveVersionEach(s, docs, s.handlers.saveVersion, userId, now)
  }

  /** The outgoing log after the chat handlers of the joins `ks` ran: one
      message per handler, to the whole of that handler's room. */
  function ChatEach(joins: seq<JoinState>, outbox: seq<Message>, ks: seq<nat>,
                    user: string, message: string, now: Timestamp): (r: seq<Message>)
    requires Below(ks, |joins|)
    ensures |r| == |outbox| + |ks| && r[..|outbox|] == outbox
    ensures forall i :: 0 <= i < |ks| ==>
      r[|outbox| + i] == Message(ToRoom(joins[ks[i]].roomId), ReceiveMessage, ChatLine(user, message, now))
    decreases |ks|
  {
    if ks == [] then outbox
    else
      var ks' := ks[..|ks| - 1];
      assert ks == ks' + [ks[|ks| - 1]];
      ChatEach(joins, outbox, ks', user, message, now)
        + [Message(ToRoom(joins[ks[|ks| - 1]].roomId), ReceiveMessage, ChatLine(user, message, now))]
  }

  /** A `chat-message` event carrying the client's `user` and `message`. */
  function ChatMessage(s: SessionState, user: string, message: string, now: Timestamp): (t: SessionState)
    requires Valid(s)
    ensures SameShape(s, t) && t.joins == s.joins
  {
    s.(outbox := ChatEach(s.joins, s.outbox, s.handlers.chatMessage, user, message, now))
  }

  // ---------------------------------------------------------------------
  // Properties

  /** The shape every join should leave: member of the current room only,
      and exactly one handler per event, all closing over the latest join. */
  ghost predicate Tidy(s: SessionState)
  {
    && Valid(s)
    && match s.currentRoom
       case None =>
         s.rooms == {} && s.handlers == NoHandlers
       case Some(room) =>
         && 0 < |s.joins|
         && s.joins[|s.joins| - 1].roomId == room
         && s.rooms == {room}
         && s.handlers == OneEach(|s.joins| - 1)
  }

  /** One handler per event, all of join `k`. */
  function OneEach(k: nat): Handlers
  {
    Handlers([k], [k], [k])
  }

  lemma InitialIsTidy()
    ensures Tidy(Initial)
  {
  }

  lemma AttachAfterDetached(c: SessionState, docs: Docs, roomId: RoomId)
    requires Valid(c) && WellKeyed(docs)
    requires c.rooms == {} && c.handlers == NoHandlers
    ensures var t := Attach(c, docs, roomId);
      && Tidy(t)
      && t.currentRoom == Some(roomId)
      && t.rooms == {roomId}
      && t.handlers == OneEach(|t.joins| - 1)
  {
  }

  /** A join from a tidy session whose current room is not "" leaves the
      session in the joined room only, with one handler per event. */
  lemma JoinKeepsOneHandlerEach(s: SessionState, docs: Docs, roomId: RoomId)
    requires Tidy(s) && WellKeyed(docs) && s.currentRoom != Some("")
    ensures var t := JoinRoom(s, docs, roomId);
      && Tidy(t)
      && t.currentRoom == Some(roomId)
      && t.rooms == {roomId}
      && t.handlers == OneEach(|t.joins| - 1)
  {
    var c := CleanupRoom(s);
    if Truthy(s.currentRoom) {
      assert s.rooms - {s.currentRoom.value} == {};
    }
    AttachAfterDetached(c, docs, roomId);
  }

  /** Joins one room after the other. */
  function JoinAll(s: SessionState, docs: Docs, rs: seq<RoomId>): (t: SessionState)
    requires Valid(s) && WellKeyed(docs)
    ensures Valid(t)
    decreases |rs|
  {
    if rs == [] then s else JoinRoom(JoinAll(s, docs, rs[..|rs| - 1]), docs, rs[|rs| - 1])
  }

  /** Any number of joins, to the same room or to different ones, leave one
      handler per event and membership of the last room only, provided no
      room left behind was "". */
  lemma {:induction false} RepeatedJoinsKeepOneHandlerEach(s: SessionState, docs: Docs, rs: seq<RoomId>)
    requires Tidy(s) && WellKeyed(docs) && s.currentRoom != Some("")
    requires 0 < |rs|
    requires forall i :: 0 <= i < |rs| - 1 ==> rs[i] != ""
    ensures var t := JoinAll(s, docs, rs);
      && Tidy(t)
      && t.currentRoom == Some(rs[|rs| - 1])
      && t.rooms == {rs[|rs| - 1]}
      && t.handlers == OneEach(|t.joins| - 1)
    decreases |rs|
  {
    var rs' := rs[..|rs| - 1];
    var t' := JoinAll(s, docs, rs');
    if rs' == [] {
      assert t' == s;
    } else {
      RepeatedJoinsKeepOneHandlerEach(s, docs, rs');
      assert t'.currentRoom == Some(rs[|rs| - 2]);
    }
    JoinKeepsOneHandlerEach(t', docs, rs[|rs| - 1]);
  }

  /** As written, a session in room "" is never cleaned up: the next join
      keeps the old handlers and adds one more per event, and stays a member
      of "". */
  lemma EmptyRoomKeepsOldHandlers(s: SessionState, docs: Docs, roomId: RoomId)
    requires Valid(s) && WellKeyed(docs) && s.currentRoom == Some("")
    ensures var t := JoinRoom(s, docs, roomId);
      && (forall e :: t.handlers.Of(e) == s.handlers.Of(e) + [|s.joins|])
      && t.rooms == s.rooms + {roomId}
  {
    assert CleanupRoom(s) == s;
  }

  /** The counterexample: joining "" and then "main" leaves two handlers per
      event, and membership of both rooms. */
  lemma EmptyRoomIdDefeatsCleanup()
    ensures var t := JoinRoom(JoinRoom(Initial, map[], ""), map[], "main");
      && t.handlers == Handlers([0, 1], [0, 1], [0, 1])
      && "" in t.rooms && "main" in t.rooms
  {
    var t1 := JoinRoom(Initial, map[], "");
    JoinKeepsOneHandlerEach(Initial, map[], "");
    EmptyRoomKeepsOldHandlers(t1, map[], "main");
    var t := JoinRoom(t1, map[], "main");
    assert t.handlers.Of(CodeChangeEvent) == [0, 1];
    assert t.handlers.Of(SaveVersionEvent) == [0, 1];
    assert t.handlers.Of(ChatMessageEvent) == [0, 1];
  }

  /** The cleanup the de-duplication needs: detach whenever a room is set. */
  function CleanupRoomIntended(s: SessionState): SessionState
  {
    if s.currentRoom.Some? then Detach(s) else s
  }

  function JoinRoomIntended(s: SessionState, docs: Docs, roomId: RoomId): SessionState
    requires WellKeyed(docs)
  {
    Attach(CleanupRoomIntended(s), docs, roomId)
  }

  /** With the intended cleanup every join, from any tidy session, leaves
      one handler per event and membership of the joined room only. */
  lemma IntendedJoinKeepsOneHandlerEach(s: SessionState, docs: Docs, roomId: RoomId)
    requires Tidy(s) && WellKeyed(docs)
    ensures var t := JoinRoomIntended(s, docs, roomId);
      && Tidy(t)
      && t.currentRoom == Some(roomId)
      && t.rooms == {roomId}
      && t.handlers == OneEach(|t.joins| - 1)
  {
    if s.currentRoom.Some? {
      assert s.rooms - {s.currentRoom.value} == {};
    }
    AttachAfterDetached(CleanupRoomIntended(s), docs, roomId);
  }

  /** Joining a room with no stored document starts from empty text and no
      versions, and stores nothing yet. */
  lemma JoinCreatesEmptyDocument(s: SessionState, docs: Docs, roomId: RoomId)
    requires Valid(s) && WellKeyed(docs) && roomId !in docs
    ensures var t := JoinRoom(s, docs, roomId);
      t.joins[|t.joins| - 1] == JoinState(roomId, Document(roomId, "", []), None)
  {
  }

  /** A join sends exactly one message: `receive-code` with the loaded
      content, to the joining connection only. */
  lemma JoinSyncsJoinerOnly(s: SessionState, docs: Docs, roomId: RoomId)
    requires Valid(s) && WellKeyed(docs)
    ensures var t := JoinRoom(s, docs, roomId);
      t.outbox == s.outbox + [Message(ToSender, ReceiveCode,
        Code(if roomId in docs then docs[roomId].currentContent else ""))]
  {
  }

  /** A burst of `code-change` events with no quiet period in between. */
  function CodeChanges(s: SessionState, codes: seq<string>): (t: SessionState)
    requires Valid(s)
    ensures SameShape(s, t) && Valid(t) && t.outbox == s.outbox
    ensures forall j :: 0 <= j < |s.joins| ==>
      && t.joins[j].doc == s.joins[j].doc
      && (t.joins[j].pending == s.joins[j].pending
          || (t.joins[j].pending.Some? && t.joins[j].pending.value in codes))
    decreases |codes|
  {
    if codes == [] then s else CodeChanges(CodeChange(s, codes[0]), codes[1..])
  }

  /** In a tidy session a burst only rearms the current join's slot, which
      ends up holding the last code; nothing else changes. */
  lemma {:induction false} BurstKeepsLastCode(s: SessionState, codes: seq<string>)
    requires Tidy(s) && s.currentRoom.Some? && 0 < |codes|
    ensures var t := CodeChanges(s, codes);
      var k := |s.joins| - 1;
      t == s.(joins := s.joins[k := s.joins[k].(pending := Some(codes[|codes| - 1]))])
    decreases |codes|
  {
    var k := |s.joins| - 1;
    var t1 := CodeChange(s, codes[0]);
    assert t1.joins == s.joins[k := s.joins[k].(pending := Some(codes[0]))];
    if 1 < |codes| {
      SameShapeKeepsTidy(s, t1);
      BurstKeepsLastCode(t1, codes[1..]);
      assert t1.joins[k := t1.joins[k].(pending := Some(codes[|codes| - 1]))]
          == s.joins[k := s.joins[k].(pending := Some(codes[|codes| - 1]))];
    } else {
      assert codes[1..] == [];
    }
  }

  /** Last write wins: after a burst and one quiet period only the last code
      is assigned and saved, and it is sent exactly once, to the rest of the
      room; a second quiet period commits nothing. */
  lemma BurstCommitsLastCodeOnce(s: SessionState, docs: Docs, codes: seq<string>)
    requires Tidy(s) && s.currentRoom.Some? && 0 < |codes|
    ensures var k := |s.joins| - 1;
      var last := codes[|codes| - 1];
      var room := s.currentRoom.value;
      var a := QuietPeriodElapsed(CodeChanges(s, codes), docs, k);
      && a.session.joins[k].doc == s.joins[k].doc.(currentContent := last)
      && a.docs == Saved(docs, s.joins[k].doc.(currentContent := last))
      && a.session.outbox == s.outbox + [Message(ToRoomExceptSender(room), ReceiveCode, Code(last))]
      && QuietPeriodElapsed(a.session, a.docs, k) == a
  {
    BurstKeepsLastCode(s, codes);
  }

  /** The commit's broadcast reaches every other member of the join's room
      and never the connection that sent the code. */
  lemma CommitSkipsSender(s: SessionState, docs: Docs, k: nat, sender: ConnId,
                          membership: map<ConnId, set<RoomId>>)
    requires k < |s.joins| && s.joins[k].pending.Some?
    ensures var a := QuietPeriodElapsed(s, docs, k);
      var m := a.session.outbox[|a.session.outbox| - 1];
      && a.session.outbox[..|s.outbox|] == s.outbox
      && |a.session.outbox| == |s.outbox| + 1
      && sender !in Recipients(m.to, sender, membership)
      && forall c :: c in membership && s.joins[k].roomId in membership[c] && c != sender
           ==> c in Recipients(m.to, sender, membership)
  {
  }

  /** When a join's timer fires with a code pending, that code becomes the
      current content of the join's own room's stored document and goes to
      the rest of that room, whatever room the connection is in by then. */
  lemma CommitWritesJoinRoom(s: SessionState, docs: Docs, k: nat)
    requires Valid(s) && k < |s.joins| && s.joins[k].pending.Some?
    ensures var room := s.joins[k].roomId;
      var code := s.joins[k].pending.value;
      var a := QuietPeriodElapsed(s, docs, k);
      && room in a.docs && a.docs[room].currentContent == code
      && a.session.outbox == s.outbox + [Message(ToRoomExceptSender(room), ReceiveCode, Code(code))]
  {
  }

  /** `cleanupRoom` does not clear a timer: a code still pending from an
      earlier join commits to that join's room and document after the
      connection has moved on and no longer listens to that room's events. */
  lemma StaleTimerCommitsToOldRoom(s: SessionState, docs: Docs, oldRoom: RoomId, newRoom: RoomId, code: string)
    requires Tidy(s) && WellKeyed(docs) && s.currentRoom != Some("")
    requires oldRoom != ""
    ensures var t1 := JoinRoom(s, docs, oldRoom);
      var k := |t1.joins| - 1;
      var t := JoinRoom(CodeChange(t1, code), docs, newRoom);
      var a := QuietPeriodElapsed(t, docs, k);
      && k < |t.joins| && t.currentRoom == Some(newRoom)
      && k !in t.handlers.codeChange
      && oldRoom in a.docs && a.docs[oldRoom].currentContent == code
      && a.session.outbox == t.outbox + [Message(ToRoomExceptSender(oldRoom), ReceiveCode, Code(code))]
  {
    var t1 := JoinRoom(s, docs, oldRoom);
    JoinKeepsOneHandlerEach(s, docs, oldRoom);
    var k := |t1.joins| - 1;
    var t2 := CodeChange(t1, code);
    assert t2.joins[k] == t1.joins[k].(pending := Some(code));
    SameShapeKeepsTidy(t1, t2);
    JoinKeepsOneHandlerEach(t2, docs, newRoom);
    var t := JoinRoom(t2, docs, newRoom);
    assert t.joins[k] == t2.joins[k];
    CommitWritesJoinRoom(t, docs, k);
  }

  /** In a tidy session `save-version` prepends one version holding the
      join's current content, shifts the old ones by one, keeps the content,
      saves the document and acknowledges to the sender only. */
  lemma SaveVersionPrepends(s: SessionState, docs: Docs, userId: Option<UserId>, now: Timestamp)
    requires Tidy(s) && s.currentRoom.Some?
    ensures var k := |s.joins| - 1;
      var d := s.joins[k].doc;
      var a := SaveVersion(s, docs, userId, now);
      var d' := a.session.joins[k].doc;
      && |d'.versions| == |d.versions| + 1
      && d'.versions[0] == Version(d.currentContent, userId, None, None, now)
      && (forall i :: 0 <= i < |d.versions| ==> d'.versions[i + 1] == d.versions[i])
      && d'.currentContent == d.currentContent && d'.roomId == d.roomId
      && a.docs == Saved(docs, d')
      && a.session.outbox == s.outbox + [Message(ToSender, VersionSaved, NoPayload)]
      && Tidy(a.session)
  {
    var k := |s.joins| - 1;
    SaveVersionRunsOneHandler(s, docs, userId, now);
    var a := SaveVersionAt(s, docs, k, userId, now);
    var d := s.joins[k].doc;
    var d' := a.session.joins[k].doc;
    assert d'.versions == [NewVersion(d.currentContent, userId, None, None, Some(now), now)] + d.versions;
    SameShapeKeepsTidy(s, a.session);
  }

  /** In a tidy session only the current join's `save-version` handler runs. */
  lemma SaveVersionRunsOneHandler(s: SessionState, docs: Docs, userId: Option<UserId>, now: Timestamp)
    requires Tidy(s) && s.currentRoom.Some?
    ensures SaveVersion(s, docs, userId, now) == SaveVersionAt(s, docs, |s.joins| - 1, userId, now)
  {
    var k := |s.joins| - 1;
    assert s.handlers.saveVersion == [k];
    assert [k][..0] == [];
    assert SaveVersionEach(s, docs, [], userId, now) == After(s, docs);
  }

  /** In a tidy session a chat message goes once to the whole current room,
      the sender included, stamped by the server, and changes no document. */
  lemma ChatReachesWholeRoom(s: SessionState, sender: ConnId, membership: map<ConnId, set<RoomId>>,
                             user: string, message: string, now: Timestamp)
    requires Tidy(s) && s.currentRoom.Some?
    requires sender in membership && membership[sender] == s.rooms
    ensures var t := ChatMessage(s, user, message, now);
      var m := Message(ToRoom(s.currentRoom.value), ReceiveMessage, ChatLine(user, message, now));
      && t.outbox == s.outbox + [m]
      && t.joins == s.joins
      && sender in Recipients(m.to, sender, membership)
  {
    var t := ChatMessage(s, user, message, now);
    assert t.outbox == t.outbox[..|s.outbox|] + [t.outbox[|s.outbox|]];
  }

  /** No event other than a join changes the room membership or the
      handlers, so every one of them keeps a session tidy. */
  lemma SameShapeKeepsTidy(s: SessionState, t: SessionState)
    requires Tidy(s) && SameShape(s, t)
    ensures Tidy(t)
  {
  }

  /** Events that keep the shape keep a session valid. */
  lemma SameShapeKeepsValid(s: SessionState, t: SessionState)
    requires Valid(s) && SameShape(s, t)
    ensures Valid(t)
  {
  }

  /** A disconnect, which runs `cleanupRoom`, leaves the (truthy) current
      room and drops every handler. */
  lemma DisconnectDetaches(s: SessionState)
    requires Tidy(s) && Truthy(s.currentRoom)
    ensures var t := CleanupRoom(s);
      t.rooms == {} && t.handlers == NoHandlers
  {
  }
}
