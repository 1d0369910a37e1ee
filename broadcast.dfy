/** What a connection emits: to itself (`socket.emit`), to the rest of a room
    (`socket.to(room).emit`), or to a whole room (`io.to(room).emit`). */
module Broadcast {
  import opened DocumentModel

  /** A Socket.IO socket id. */
  type ConnId = string

  datatype Audience = ToSender | ToRoomExceptSender(room: RoomId) | ToRoom(room: RoomId)

  datatype OutEvent = ReceiveCode | VersionSaved | ReceiveMessage

  datatype Payload =
    | Code(code: string)
    | NoPayload
    | ChatLine(user: string, message: string, timestamp: Timestamp)

  /** One entry of a connection's outgoing log. */
  datatype Message = Message(to: Audience, event: OutEvent, payload: Payload)

  /** The connections an emission by `sender` reaches, given the rooms each
      connection is a member of. */
  function Recipients(to: Audience, sender: ConnId, membership: map<ConnId, set<RoomId>>): (r: set<ConnId>)
    ensures to.ToSender? ==> r == {sender}
    ensures to.ToRoomExceptSender? ==>
      sender !in r &&
      forall c :: c in r <==> c in membership && to.room in membership[c] && c != sender
    ensures to.ToRoom? ==>
      forall c :: c in r <==> c in membership && to.room in membership[c]
  {
    match to
    case ToSender => {sender}
    case ToRoomExceptSender(room) => set c | c in membership && room in membership[c] && c != sender
    case ToRoom(room) => set c | c in membership && room in membership[c]
  }
}
