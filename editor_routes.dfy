/** The version-history HTTP routes of routes/editorRoutes.js: the
    authentication gate, `GET /:roomId/versions` and `POST /:roomId/restore`. */
module EditorRoutes {
  import opened DocumentModel

  /** What a request carries for the gate: the `token` cookie, and whether
      that token passes signature verification (the JWT check itself is not
      part of this model). */
  datatype Credentials = Credentials(token: Option<string>, verifies: bool)

  datatype Body =
    | ErrorMessage(message: string)
    | VersionList(versions: seq<Version>)
    | RestoredContent(content: string)

  datatype Response = Response(status: int, body: Body)

  /** A response together with the collection after the request. */
  datatype Outcome = Outcome(response: Response, docs: Docs)

  /** JavaScript truthiness of the cookie: absent and "" are falsy. */
  predicate HasToken(c: Credentials)
  {
    c.token.Some? && c.token.value != ""
  }

  /** `authMiddleware`: None lets the request through to its handler;
      otherwise the 401 response it sends instead. */
  function Authenticate(c: Credentials): (r: Option<Response>)
    ensures r.None? <==> HasToken(c) && c.verifies
    ensures !HasToken(c) ==> r == Some(Response(401, ErrorMessage("Unauthorized")))
    ensures HasToken(c) && !c.verifies ==> r == Some(Response(401, ErrorMessage("Invalid token")))
  {
    if !HasToken(c) then Some(Response(401, ErrorMessage("Unauthorized")))
    else if !c.verifies then Some(Response(401, ErrorMessage("Invalid token")))
    else None
  }

  /** `doc?.versions || []`: the stored list, or [] when the room has no
      document. */
  function ListVersions(docs: Docs, roomId: RoomId): (r: seq<Version>)
    requires WellKeyed(docs)
    ensures roomId in docs ==> r == docs[roomId].versions
    ensures roomId !in docs ==> r == []
  {
    match FindOne(docs, roomId)
    case Some(doc) => doc.versions
    case None => []
  }

  /** `GET /:roomId/versions`. It only reads the collection. */
  function GetVersions(c: Credentials, docs: Docs, roomId: RoomId): (r: Response)
    requires WellKeyed(docs)
    ensures Authenticate(c).Some? ==> r == Authenticate(c).value
    ensures Authenticate(c).None? ==> r == Response(200, VersionList(ListVersions(docs, roomId)))
  {
    match Authenticate(c)
    case Some(denied) => denied
    case None => Response(200, VersionList(ListVersions(docs, roomId)))
  }

  /** Whether `doc.versions[index]` names a stored version. */
  predicate InRange(doc: Document, index: int)
  {
    0 <= index < |doc.versions|
  }

  /** The restore handler behind the gate: 404 and no write when the room
      has no document or the index names no version; otherwise the chosen
      version's content becomes the current content, the document is saved
      and that content is returned. */
  function RestoreEffect(docs: Docs, roomId: RoomId, index: int): (o: Outcome)
    requires WellKeyed(docs)
    ensures o.response.status == 200 <==> roomId in docs && InRange(docs[roomId], index)
    ensures (roomId !in docs || !InRange(docs[roomId], index)) ==>
      o == Outcome(Response(404, ErrorMessage("Version not found")), docs)
    ensures roomId in docs && InRange(docs[roomId], index) ==>
      var content := docs[roomId].versions[index].content;
      && o.response == Response(200, RestoredContent(content))
      && o.docs.Keys == docs.Keys
      && o.docs[roomId] == docs[roomId].(currentContent := content)
      && forall x :: x in docs && x != roomId ==> o.docs[x] == docs[x]
    ensures WellKeyed(o.docs)
    ensures forall x :: x in docs ==> x in o.docs && o.docs[x].versions == docs[x].versions
  {
    match FindOne(docs, roomId)
    case None => Outcome(Response(404, ErrorMessage("Version not found")), docs)
    case Some(doc) =>
      if !InRange(doc, index) then Outcome(Response(404, ErrorMessage("Version not found")), docs)
      else
        var restored := doc.(currentContent := doc.versions[index].content);
        SavedKeepsWellKeyed(docs, restored);
        Outcome(Response(200, RestoredContent(restored.currentContent)), Saved(docs, restored))
  }

  /** `POST /:roomId/restore`: a request the gate refuses touches no
      document. */
  function PostRestore(c: Credentials, docs: Docs, roomId: RoomId, index: int): (o: Outcome)
    requires WellKeyed(docs)
    ensures Authenticate(c).Some? ==> o == Outcome(Authenticate(c).value, docs)
    ensures Authenticate(c).None? ==> o == RestoreEffect(docs, roomId, index)
  {
    match Authenticate(c)
    case Some(denied) => Outcome(denied, docs)
    case None => RestoreEffect(docs, roomId, index)
  }

  /** The restore route run against the store: load, check, assign the
      current content in place, save. */
  method Restore(c: Credentials, store: DocumentStore, roomId: RoomId, index: int)
    returns (response: Response)
    requires store.Valid()
    modifies store
    ensures store.Valid()
    ensures Outcome(response, store.docs) == PostRestore(c, old(store.docs), roomId, index)
  {
    var denied := Authenticate(c);
    if denied.Some? {
      return denied.value;
    }
    var found := store.Find(roomId);
    if found.None? || !InRange(found.value, index) {
      return Response(404, ErrorMessage("Version not found"));
    }
    var doc := found.value;
    doc := doc.(currentContent := doc.versions[index].content);
    store.Save(doc);
    response := Response(200, RestoredContent(doc.currentContent));
  }

  /** Restoring the same index a second time changes nothing more and
      answers the same. */
  lemma RestoreIsIdempotent(c: Credentials, docs: Docs, roomId: RoomId, index: int)
    requires WellKeyed(docs)
    ensures var once := PostRestore(c, docs, roomId, index);
      PostRestore(c, once.docs, roomId, index) == once
  {
    var once := PostRestore(c, docs, roomId, index);
    if Authenticate(c).None? && roomId in docs && InRange(docs[roomId], index) {
      assert once.docs[roomId := once.docs[roomId]] == once.docs;
    }
  }
}
