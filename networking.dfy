/**
 * The two networking objects the proxy drives: the arguments of a
 * message-received event and a connection (NetworkManagerAsync). Sockets and
 * the asynchronous receive loop are not modelled; sending only records what
 * was sent.
 */
module Networking {
  import opened Binary
  import opened Crypto
  import opened Messages

  /** The arguments of one MessageReceived event. */
  class MessageReceivedEventArgs {
    const Message: Message
    /** The frame exactly as received, header included. */
    const MessageData: array<Byte>
    /** The decrypted body. */
    const MessageBody: array<Byte>

    constructor (message: Message, data: seq<Byte>, body: seq<Byte>)
      ensures Valid() && Snapshot() == Received(message, data, body)
      ensures fresh(MessageData) && fresh(MessageBody)
    {
      Message := message;
      MessageData := new Byte[|data|](i requires 0 <= i < |data| => data[i]);
      MessageBody := new Byte[|body|](i requires 0 <= i < |body| => body[i]);
    }

    /** The frame and the body are separate buffers. */
    ghost predicate Valid()
    {
      MessageData != MessageBody
    }

    /** The event's current contents, as a value. */
    ghost function Snapshot(): Received
      reads MessageData, MessageBody
    {
      Received(Message, MessageData[..], MessageBody[..])
    }
  }

  /** One connection of the proxy, with the crypto object attached to it. */
  class NetworkManagerAsync {
    const Crypto: Crypto8
    /** The crypto object's log at the moment it was attached. */
    ghost const AttachedLog: seq<CryptoOp>
    /** Every buffer sent on this connection, in order. */
    ghost var Sent: seq<seq<Byte>>
    /** The attached crypto object's log at the moment of each send. */
    ghost var LogAtSend: seq<seq<CryptoOp>>

    constructor (crypto: Crypto8)
      ensures Crypto == crypto && AttachedLog == crypto.log
      ensures Sent == [] && LogAtSend == []
    {
      Crypto := crypto;
      AttachedLog := crypto.log;
      Sent, LogAtSend := [], [];
    }

    /** Connection.Send: ships the buffer's current contents. */
    method Send(buffer: array<Byte>)
      modifies this
      ensures Sent == old(Sent) + [buffer[..]]
      ensures LogAtSend == old(LogAtSend) + [Crypto.log]
    {
      Sent := Sent + [buffer[..]];
      LogAtSend := LogAtSend + [Crypto.log];
    }
  }
}
