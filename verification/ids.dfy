/** Identifiers shared by the server and the client model. */
module Ids {
  /** A Socket.IO connection id (`socket.id`). */
  type ConnId = string
  /** A room id, which is also the name of the room's broadcast topic. */
  type RoomId = string
  type Username = string
}
