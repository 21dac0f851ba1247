/** The payload exchanged between clients and the server (`IChatMessage`). */
module ChatMessages {

  datatype ChatMessage = ChatMessage(userName: string, message: string)

}
