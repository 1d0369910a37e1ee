# Room sessions and version history of a collaborative code editor

This project models the server side of a real-time collaborative editor: the
Socket.IO `connection` handler of `server.js`, the version-history routes of
`routes/editorRoutes.js`, and the document records of `models/document.js`.
It then proves properties of the model in Dafny.

- **DocumentModel** (`document.dfy`) holds the `Version` and `Document`
  records. The collection is a map from room id to document: the unique
  index on `roomId` allows at most one document per room. `DocumentStore` is
  that collection as an object, and `Save` replaces the stored snapshot.
- **Broadcast** (`broadcast.dfy`) defines the three ways a connection emits:
  `socket.emit` to itself, `socket.to(room).emit` to the rest of a room, and
  `io.to(room).emit` to the whole room. It also defines who each one reaches.
- **Session** (`session.dfy`) is one connection's state machine, on values:
  - the current room and the set of joined rooms;
  - the listener array of each of the three events;
  - one closure state per `join-room`: the room id, the document loaded at
    that join, and the code its debounce timer will commit;
  - the log of everything the connection emitted.

  The 150 ms debounce is a pending slot, plus a separate "quiet period
  elapsed" step for the timer firing. Each handler names the join whose
  closure it belongs to. Because of that, a timer left over from an earlier
  join still commits to its own room.
- **Server** (`connection.dfy`) is the same connection as a class whose
  methods update its fields in place. Each method is proved to produce
  exactly the state the Session function computes, so every Session lemma
  holds of the class.
- **EditorRoutes** (`editor_routes.dfy`) covers the authentication gate,
  `GET /:roomId/versions` and `POST /:roomId/restore`. Restore is also a
  method on the store, proved against the pure function.
- **Scenarios** (`scenarios.dfy`) proves properties that cross between the
  socket and the HTTP side.

Inputs the server gets from its environment become parameters:
- The clock (`new Date()`) is a `now: Timestamp`.
- The outcome of JWT verification is `Credentials.verifies`.
- The timer firing is `QuietPeriodElapsed(k)`.

## Model

| member | source | states |
|---|---|---|
| DocumentModel.NewVersion | models/document.js:3-9 | A version carries content, savedBy, savedByName, roomId and createdAt, each as given. createdAt is the creation time `now` when not supplied. |
| DocumentModel.FindOne | models/document.js:12 | `findOne({ roomId })` finds a document exactly when one is stored under that room id, and the document found has that room id. |
| DocumentModel.Saved | models/document.js:11-15 | A save stores the document under its own room id. The other rooms keep their documents, and no room is lost. |
| DocumentModel.SavedKeepsWellKeyed | models/document.js:12 | Saving keeps one document per room id, each under its own key, and the saved document is what `findOne` then returns. |
| DocumentModel.DocumentStore.constructor | models/document.js:11-17 | The collection starts empty and keyed by room id. |
| DocumentModel.DocumentStore.Save | models/document.js:12 | The store afterwards is `Saved` of the store before, and stays keyed by room id. |
| Broadcast.Recipients | server.js:85 | A sender-only emission reaches exactly the sender. A room emission excluding the sender reaches exactly the other members of the room, and never the sender. A whole-room emission reaches exactly the members. |
| Session.Handlers.On | server.js:80 | Registering a handler appends it to that event's array and leaves the other events' arrays alone. |
| Session.Handlers.RemoveAll | server.js:58-60 | `removeAllListeners(e)` empties e's array and leaves the other events' arrays alone. |
| Session.Detach | server.js:57-60 | The connection leaves its current room and every handler of the three events is removed. `currentRoom`, the closures and the emissions stay as they were. |
| Session.CleanupRoom | server.js:55-62 | When the current room is truthy, the connection leaves that room and every handler is removed. Otherwise nothing changes. `currentRoom`, the closures and the emissions are never touched. |
| Session.LoadOrCreate | server.js:72-73 | A join works on the stored document of the room when there is one. Otherwise it works on a new document of that room with empty content and no versions. |
| Session.AttachEffect | server.js:66-104 | After the cleanup, a join puts the connection in the joined room and adds exactly one closure over the loaded or created document. It sends that document's content to the joiner and gives each event one more handler, the new closure's, after the ones it had. |
| Session.JoinRoom | server.js:64-105 | After a join, `currentRoom` is the joined room and the connection is a member of it. Exactly one closure is added, the earlier closures are unchanged, and every handler names an existing closure. |
| Session.ArmDebounce | server.js:81-82 | Each handler clears its join's timer and arms a new one: the slot of every join named in the list holds the new code, and every other slot is unchanged. |
| Session.CodeChange | server.js:80-87 | A `code-change` event sets the pending slot of exactly the joins with a registered handler to the new code. Every other join is unchanged, every document is unchanged, and nothing is emitted. Rooms and handlers stay as they were. |
| Session.QuietPeriodElapsed | server.js:82-86 | With nothing pending, a fired timer changes nothing. Otherwise join k's content becomes the pending code and its slot is cleared. That document is saved, and the code is emitted once to the rest of join k's room. Every other join, the rooms and the handlers stay as they were. |
| Session.SaveVersionAt | server.js:90-98 | One `save-version` handler puts a new version first in join k's list and shifts the old versions unchanged. The new version holds the current content, savedBy and the time, with no savedByName or roomId. The content and the slot are kept. The document is saved and the sender alone is acknowledged. Every other join stays as it was. |
| Session.SaveVersionEach | server.js:90-98 | Running the `save-version` handlers one after another keeps the rooms, the handlers and the room of every closure. |
| Session.SaveVersion | server.js:90-98 | A `save-version` event keeps the rooms, the handlers and the room of every closure, and keeps the collection keyed by room id. |
| Session.ChatEach | server.js:101-104 | The chat handlers append one message each, in handler order, after the earlier emissions. Each message goes to the whole room of its join and carries user, message and the server's timestamp. |
| Session.ChatMessage | server.js:101-104 | A chat message changes only the emission log. Every closure and document stays as it was. |
| Session.InitialIsTidy | server.js:51 | A new connection has no room and no handlers. |
| Session.AttachAfterDetached | server.js:66-104 | Joining from a detached state leaves the connection in the joined room only, with one handler per event, all belonging to the new join. |
| Session.JoinKeepsOneHandlerEach | server.js:55-105 | From a tidy session whose room is not "", a join leaves the connection in the joined room only, with exactly one handler for each of the three events. |
| Session.JoinAll | server.js:64-65 | Any sequence of joins keeps every handler pointing at an existing closure. |
| Session.RepeatedJoinsKeepOneHandlerEach | server.js:55-105 | After any number of joins, to the same room or to different ones, the connection is in the last room only, with exactly one handler per event. This needs every room it left to be other than "". |
| Session.EmptyRoomKeepsOldHandlers | server.js:56 | From room "", a join keeps every old handler, adds one more per event, and does not leave "". |
| Session.EmptyRoomIdDefeatsCleanup | server.js:56 | Joining "" and then "main" leaves two handlers for each event and membership of both rooms. |
| Session.IntendedJoinKeepsOneHandlerEach | server.js:55-62 | With a cleanup that runs whenever a room is set, every join from a tidy session leaves the joined room only, with one handler per event. |
| Session.JoinCreatesEmptyDocument | server.js:72-73 | Joining a room with no stored document works on a new document with empty content and no versions. Nothing is stored yet. |
| Session.JoinSyncsJoinerOnly | server.js:76 | A join emits exactly one message: `receive-code` with the document's current content, to the joining connection only. |
| Session.CodeChanges | server.js:80-87 | A burst of `code-change` events changes no document and emits nothing. Each pending slot is either unchanged or holds one of the burst's codes. |
| Session.BurstKeepsLastCode | server.js:80-82 | In a tidy session, a burst with no quiet period in between leaves only the current join's slot changed, and that slot holds the last code. |
| Session.BurstCommitsLastCodeOnce | server.js:80-86 | After a burst and one quiet period, the document holds the last code and is saved. The last code is emitted exactly once, to the rest of the room. A second quiet period changes nothing. |
| Session.CommitSkipsSender | server.js:85 | A commit adds exactly one emission. It reaches every other member of the join's room and never the sender. |
| Session.CommitWritesJoinRoom | server.js:82-86 | A timer that fires with a pending code writes that code into its join's room's stored document and emits it to that room. This holds whatever room the connection is in now. |
| Session.StaleTimerCommitsToOldRoom | server.js:55-86 | A code still pending when the connection moves to another room commits to the old room's document and goes to the old room. By then the handler is no longer registered. |
| Session.SaveVersionPrepends | server.js:91-97 | `save-version` makes the list one longer. The new first version holds the current content, savedBy, the server's time, and no savedByName or roomId. Each old version moves from i to i+1 unchanged. The content is untouched. The document is saved, and only the sender is acknowledged. |
| Session.ChatReachesWholeRoom | server.js:101-103 | In a tidy session, a chat message is emitted once, to the whole current room with the sender included. It carries the server's timestamp, and no closure or document changes. |
| Session.SameShapeKeepsTidy | server.js:80-104 | The code, save and chat events change neither the rooms nor the handlers, so they keep a session tidy. |
| Session.DisconnectDetaches | server.js:107 | A disconnect runs `cleanupRoom`: from a truthy room it leaves that room and drops every handler. |
| Server.Connection.constructor | server.js:51-52 | A new connection has no room, no handlers, no closures and no emissions. |
| Server.Connection.CleanupRoom | server.js:55-62 | In place, the connection's state becomes `Session.CleanupRoom` of its old state, and a valid connection stays valid. |
| Server.Connection.JoinRoom | server.js:64-105 | In place, the connection's state becomes `Session.JoinRoom` of its old state and the store. The store is unchanged. |
| Server.Connection.CodeChange | server.js:80-82 | The loop over the registered handlers leaves the state `Session.CodeChange` describes. |
| Server.Connection.QuietPeriodElapsed | server.js:82-86 | The connection and the store become what `Session.QuietPeriodElapsed` describes. |
| Server.Connection.SaveVersion | server.js:90-98 | The loop over the handlers leaves the connection and the store as `Session.SaveVersion` describes. |
| Server.Connection.ChatMessage | server.js:101-104 | The loop over the handlers leaves the state `Session.ChatMessage` describes. |
| Server.Connection.Disconnect | server.js:107 | A disconnect runs `cleanupRoom`: the state becomes `Session.CleanupRoom` of the old state, and a valid connection stays valid, so a timer armed before the disconnect can still fire. |
| EditorRoutes.Authenticate | routes/editorRoutes.js:7-18 | A request passes the gate exactly when its token is present, non-empty and verifies. A missing or empty token gets 401 "Unauthorized". A token that fails verification gets 401 "Invalid token". |
| EditorRoutes.ListVersions | routes/editorRoutes.js:23-24 | The listing is the stored version list unchanged, or [] when the room has no document. |
| EditorRoutes.GetVersions | routes/editorRoutes.js:21-28 | A refused request gets the gate's 401. Otherwise the answer is 200 with the listing. |
| EditorRoutes.RestoreEffect | routes/editorRoutes.js:33-42 | Status is 200 exactly when the room has a document and 0 <= index < its version count. On 200, the current content becomes that version's content and is returned, and nothing else changes. Otherwise the answer is 404 "Version not found" and the collection is unchanged. No version list ever changes. |
| EditorRoutes.PostRestore | routes/editorRoutes.js:31-46 | A request the gate refuses gets the gate's 401 and touches no document. Otherwise the outcome is the restore's. |
| EditorRoutes.Restore | routes/editorRoutes.js:31-46 | Run against the store, the route answers and leaves the store exactly as `PostRestore` describes. |
| EditorRoutes.RestoreIsIdempotent | routes/editorRoutes.js:40-41 | Restoring the same index twice gives the same state and the same answer as restoring it once. |
| Scenarios.SaveThenRestoreNewest | server.js:91-96 | After `save-version`, an authenticated restore of index 0 returns the content the document had at the save, and makes it the current content. |
| Scenarios.PendingCommitOverwritesRestore | routes/editorRoutes.js:34-41 | An HTTP restore does not reach a connected join: a code pending in that join commits over the restored content. |
| Scenarios.SaveAfterRestoreKeepsSnapshot | server.js:91-96 | A `save-version` after a restore records the join's own snapshot of the content, not the restored content. |

## Left out

- `socket.userId` is never assigned in `server.js`. The connection takes it
  as a constructor argument, and in this repository it would be None.
- The `await` between the cleanup and the registration of new handlers
  (`server.js:72`) is left out. So is any interleaving of events from
  different connections, and the window between a save and its broadcast.
  Every step is atomic.
- Real time is left out. `setTimeout` and `clearTimeout` become the pending
  slot and `QuietPeriodElapsed`; `new Date()` becomes a `now` parameter.
- Mongoose persistence is reduced to snapshot writes:
  - `doc.save()` writes the whole snapshot. Mongoose writes only the
    paths marked modified, so a save from a stale snapshot overwrites more
    here than it does in the database.
  - Assigning a value a path already holds marks nothing modified, so a
    commit of the code a join loaded writes nothing. A restore made in
    between then stays in the database, while
    `Scenarios.PendingCommitOverwritesRestore` has the commit overwrite it.
  - The `versions` array written after `unshift` is guarded by the
    document's version key. If another connection saved a version after
    this join loaded its document, this save fails with a version error
    instead of overwriting. `Scenarios.SaveThenRestoreNewest` and
    `Scenarios.SaveAfterRestoreKeepsSnapshot` then do not describe the
    database.
  - Duplicate-key failures on insert and parallel-save errors are left out.
  - The routes' 500 "Server error" paths, which come from database
    exceptions, are left out.
  - The `timestamps: true` fields, `createdAt` and `updatedAt` on the
    document, are left out.
- Room ids are strings in the model. `join-room` accepts any client value,
  and `0`, `null`, `false` and a missing argument are falsy at
  `server.js:56` too: they skip the cleanup just as `""` does.
- Socket.IO also puts every socket in a room named by its own id. `rooms`
  holds only the rooms entered through `join-room`, so "the joined room
  only" means the only room joined that way.
- `versionIndex` is an integer in the model. The JavaScript route also takes
  strings and fractions from the request body.
- JWT verification itself is a boolean input to the gate. The
  sign-up/login routes are not part of this model.
- Socket.IO's own teardown of rooms on disconnect is left out. The model
  shows only what the `disconnect` handler does.
- The client (`public/js/editor.js`) is not part of this model. It calls a
  version-deletion route that does not exist on the server, so no deletion
  is modelled. No restore path broadcasts, so no restore broadcast is
  modelled either.
- Express, CORS, the view routes and `server.listen` are not modelled.

## Findings

| source | as written | input that shows it | evidently intended | confidence | as-written member | corrected member |
|---|---|---|---|---|---|---|
| server.js:56 | `cleanupRoom` runs only when `socket.currentRoom` is truthy, so after joining room "" the next join removes no handlers and does not leave "". | `join-room ""` then `join-room "main"`: two handlers for each of `code-change`, `save-version` and `chat-message`, and membership of both rooms. Every later code change, version save and chat message runs twice. The shipped client refuses an empty room id (public/js/editor.js:77), so only another client can send it. | Clean up whenever a room was joined, so that there is one handler per event after any sequence of joins. | medium, not executed | Session.EmptyRoomIdDefeatsCleanup | Session.IntendedJoinKeepsOneHandlerEach |

`Server.Connection` follows the code as written, since it models the server
that runs. The properties about repeated joins are proved for every session
whose rooms are not "". The corrected cleanup
(`Session.CleanupRoomIntended`) is proved to keep one handler per event
with no such condition.
