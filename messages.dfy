/** Decoded protocol messages as the proxy's handlers see them. */
module Messages {
  import opened Binary

  /** Size of the frame header (message id, body length, version), in bytes. */
  const HeaderSize: nat := 7

  /**
   * The message kinds the proxy tells apart. Every other kind is handled
   * alike, so it is kept only by its id.
   */
  datatype Message =
    | SessionRequestMessage
    | LoginRequestMessage(publicKey: seq<Byte>, nonce: seq<Byte>)
    | SessionSuccessMessage
    | LoginSuccessMessage(publicKey: seq<Byte>, nonce: seq<Byte>)
    | OtherMessage(id: int)

  /**
   * One received message: the decoded message, the frame exactly as it came off
   * the socket (header included) and the decrypted body.
   */
  datatype Received = Received(message: Message, data: seq<Byte>, body: seq<Byte>)
}
