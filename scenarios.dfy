/** Properties that tie a connection's socket events to the HTTP routes,
    through the document collection they share. */
module Scenarios {
  import opened DocumentModel
  import opened Session
  import opened EditorRoutes

  /** An authenticated restore of index 0 right after `save-version` brings
      back the content the room's join had when the version was saved. */
  lemma SaveThenRestoreNewest(s: SessionState, docs: Docs, userId: Option<UserId>, now: Timestamp, c: Credentials)
    requires Tidy(s) && s.currentRoom.Some? && WellKeyed(docs)
    requires HasToken(c) && c.verifies
    ensures var room := s.currentRoom.value;
      var before := s.joins[|s.joins| - 1].doc.currentContent;
      var a := SaveVersion(s, docs, userId, now);
      var o := PostRestore(c, a.docs, room, 0);
      && o.response == Response(200, RestoredContent(before))
      && o.docs[room].currentContent == before
  {
    SaveVersionPrepends(s, docs, userId, now);
  }

  /** An HTTP restore does not reach a connected join's document: a code
      still pending in that join commits over the restored content. */
  lemma PendingCommitOverwritesRestore(s: SessionState, docs: Docs, k: nat, index: int, c: Credentials, code: string)
    requires Valid(s) && WellKeyed(docs) && k < |s.joins|
    requires s.joins[k].pending == Some(code)
    ensures var room := s.joins[k].roomId;
      var o := PostRestore(c, docs, room, index);
      var a := QuietPeriodElapsed(s, o.docs, k);
      room in a.docs && a.docs[room].currentContent == code
  {
  }

  /** Nor does it reach the join's snapshot: a `save-version` after a
      successful restore records the join's own content, not the restored
      one. */
  lemma SaveAfterRestoreKeepsSnapshot(s: SessionState, docs: Docs, index: int, c: Credentials,
                                      userId: Option<UserId>, now: Timestamp)
    requires Tidy(s) && s.currentRoom.Some? && WellKeyed(docs)
    ensures var k := |s.joins| - 1;
      var room := s.currentRoom.value;
      var o := PostRestore(c, docs, room, index);
      var a := SaveVersion(s, o.docs, userId, now);
      && room in a.docs
      && a.docs[room].versions[0].content == s.joins[k].doc.currentContent
  {
    var o := PostRestore(c, docs, s.currentRoom.value, index);
    SaveVersionPrepends(s, o.docs, userId, now);
  }
}
