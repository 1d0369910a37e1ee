/** The record shapes of the document collection (models/document.js) and the
    collection itself, one document per room id. */
module DocumentModel {

  datatype Option<+T> = None | Some(value: T)

  type RoomId = string
  type UserId = string
  /** A JavaScript Date, as milliseconds since the epoch. */
  type Timestamp = int

  /** A saved snapshot of a room's text. A field the schema declares but the
      writer did not supply is None. */
  datatype Version = Version(
    content: string,
    savedBy: Option<UserId>,
    savedByName: Option<string>,
    roomId: Option<RoomId>,
    createdAt: Timestamp)

  /** A room's document: its live text and its versions, most recent first. */
  datatype Document = Document(roomId: RoomId, currentContent: string, versions: seq<Version>)

  /** Builds a version record; when no creation time is supplied the schema's
      default, the time of creation `now`, is used. */
  function NewVersion(content: string, savedBy: Option<UserId>, savedByName: Option<string>,
                      roomId: Option<RoomId>, createdAt: Option<Timestamp>, now: Timestamp): (v: Version)
    ensures v.content == content && v.savedBy == savedBy
    ensures v.savedByName == savedByName && v.roomId == roomId
    ensures createdAt.None? ==> v.createdAt == now
    ensures createdAt.Some? ==> v.createdAt == createdAt.value
  {
    Version(content, savedBy, savedByName, roomId,
            match createdAt case Some(t) => t case None => now)
  }

  /** The collection: the unique index on `roomId` makes it a map. */
  type Docs = map<RoomId, Document>

  /** Every stored document sits under its own room id. */
  ghost predicate WellKeyed(docs: Docs)
  {
    forall r :: r in docs ==> docs[r].roomId == r
  }

  /** `findOne({ roomId })`. */
  function FindOne(docs: Docs, roomId: RoomId): (r: Option<Document>)
    requires WellKeyed(docs)
    ensures r.Some? <==> roomId in docs
    ensures r.Some? ==> r.value == docs[roomId] && r.value.roomId == roomId
  {
    if roomId in docs then Some(docs[roomId]) else None
  }

  /** `doc.save()`: the whole snapshot replaces whatever is stored for its room. */
  function Saved(docs: Docs, doc: Document): (r: Docs)
    ensures r.Keys == docs.Keys + {doc.roomId}
    ensures r[doc.roomId] == doc
    ensures forall x :: x in docs && x != doc.roomId ==> r[x] == docs[x]
  {
    docs[doc.roomId := doc]
  }

  /** Saving keeps at most one document per room id, each under its own key. */
  lemma SavedKeepsWellKeyed(docs: Docs, doc: Document)
    requires WellKeyed(docs)
    ensures WellKeyed(Saved(docs, doc))
    ensures FindOne(Saved(docs, doc), doc.roomId) == Some(doc)
  {
  }

  /** The document collection as the server sees it. */
  class DocumentStore {
    var docs: Docs

    ghost predicate Valid()
      reads this
    {
      WellKeyed(docs)
    }

    constructor ()
      ensures Valid() && docs == map[]
    {
      docs := map[];
    }

    /** `findOne({ roomId })` on the stored contents. */
    function Find(roomId: RoomId): Option<Document>
      reads this
      requires Valid()
    {
      FindOne(docs, roomId)
    }

    method Save(doc: Document)
      requires Valid()
      modifies this
      ensures Valid()
      ensures docs == Saved(old(docs), doc)
    {
      docs := docs[doc.roomId := doc];
    }
  }
}
