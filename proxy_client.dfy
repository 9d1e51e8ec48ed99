/**
 * CoCProxyClient: one proxy session between a game client and the game
 * server. Toward the client the proxy acts as the server, with the standard
 * keys; toward the server it acts as the client, with a generated keypair.
 * Each handler turns a received message into the exact buffer it forwards.
 */
module Proxy {
  import opened Binary
  import opened Wrappers
  import opened Exceptions
  import opened Crypto
  import opened Buffers
  import opened Messages
  import opened Networking
  import opened Interception

  /**
   * The block copies of the paths that only re-encrypt, into a zeroed buffer
   * the received frame's size: the received header, then the new body.
   */
  method CopyFrame(messageBytes: array<Byte>, data: seq<Byte>, body: seq<Byte>) returns (ok: bool)
    requires messageBytes[..] == Zeros(|data|)
    modifies messageBytes
    ensures ok == Reframe(data, body).Some?
    ensures ok ==> messageBytes[..] == Reframe(data, body).value
  {
    ok := BlockCopy(data, 0, messageBytes, 0, HeaderSize);
    if ok {
      ok := BlockCopy(body, 0, messageBytes, HeaderSize, |body|);
    }
  }

  /**
   * The block copies of the LoginRequest path: the received header, the
   * proxy's public key, then the new body.
   */
  method CopyFrameWithKey(messageBytes: array<Byte>, data: seq<Byte>, key: Key, body: seq<Byte>) returns (ok: bool)
    requires messageBytes[..] == Zeros(|data|)
    modifies messageBytes
    ensures ok == ReframeWithKey(data, key, body).Some?
    ensures ok ==> messageBytes[..] == ReframeWithKey(data, key, body).value
  {
    ok := BlockCopy(data, 0, messageBytes, 0, HeaderSize);
    if ok {
      ok := BlockCopy(key, 0, messageBytes, HeaderSize, KeyLength);
    }
    if ok {
      ok := BlockCopy(body, 0, messageBytes, HeaderSize + KeyLength, |body|);
    }
  }

  /**
   * Allocates the frame buffer (zeroed, the received frame's size), encrypts
   * `body` with `crypto` and fills the buffer with the block copies of the
   * paths that only re-encrypt: the received header, then the encrypted body.
   * `body` is what the handler passes to Encrypt: a clone, or the received
   * body itself.
   */
  method EncryptAndReframe(crypto: Crypto8, data: array<Byte>, body: array<Byte>)
    returns (messageBytes: array<Byte>, ok: bool)
    requires data != body
    modifies crypto, body
    ensures fresh(messageBytes) && unchanged(data)
    ensures crypto.log == old(crypto.log) + [Encrypted(old(body[..]))]
    ensures ok == Reframe(data[..], crypto.cipher(old(crypto.State()), old(body[..]))).Some?
    ensures ok ==> messageBytes[..] == Reframe(data[..], crypto.cipher(old(crypto.State()), old(body[..]))).value
  {
    messageBytes := new Byte[data.Length](_ => 0);
    var encrypted := crypto.Encrypt(body);
    ok := CopyFrame(messageBytes, data[..], encrypted[..]);
  }

  /**
   * As EncryptAndReframe, for a LoginRequest: the block copies are the
   * received header, the public key of `crypto`, then the encrypted body.
   */
  method EncryptAndReframeWithKey(crypto: Crypto8, data: array<Byte>, body: array<Byte>)
    returns (messageBytes: array<Byte>, ok: bool)
    requires data != body
    modifies crypto, body
    ensures fresh(messageBytes) && unchanged(data)
    ensures crypto.log == old(crypto.log) + [Encrypted(old(body[..]))]
    ensures ok == ReframeWithKey(data[..], crypto.KeyPair.publicKey, crypto.cipher(old(crypto.State()), old(body[..]))).Some?
    ensures ok ==> messageBytes[..]
                   == ReframeWithKey(data[..], crypto.KeyPair.publicKey, crypto.cipher(old(crypto.State()), old(body[..]))).value
  {
    messageBytes := new Byte[data.Length](_ => 0);
    var encrypted := crypto.Encrypt(body);
    ok := CopyFrameWithKey(messageBytes, data[..], crypto.KeyPair.publicKey, encrypted[..]);
  }

  class CoCProxyClient {
    /** The connection to the game client. */
    const ClientConnection: NetworkManagerAsync
    /** The connection to the game server. */
    const ServerConnection: NetworkManagerAsync
    /** The cipher both crypto objects implement. */
    ghost const cipher: Cipher

    /** The client's nonce, captured from its LoginRequest. */
    var snonce: Option<seq<Byte>>
    /** The server's nonce, captured from its LoginSuccess. */
    var rnonce: Option<seq<Byte>>

    ghost predicate Valid()
    {
      && ClientConnection != ServerConnection
      && ClientConnection.Crypto != ServerConnection.Crypto
      && ClientConnection.Crypto.cipher == cipher
      && ServerConnection.Crypto.cipher == cipher
    }

    /** The client-to-server direction, as a value. */
    ghost function ToServer(): Link
      reads this, ServerConnection, ServerConnection.Crypto
    {
      Link(ServerConnection.Crypto.State(), snonce, ServerConnection.Sent)
    }

    /** The server-to-client direction, as a value. */
    ghost function ToClient(): Link
      reads this, ClientConnection, ClientConnection.Crypto
    {
      Link(ClientConnection.Crypto.State(), rnonce, ClientConnection.Sent)
    }

    /**
     * Builds the session. The keypair a new Crypto8 would generate, the
     * standard keypair the client connection is built with and the well-known
     * server public key are parameters.
     */
    constructor (generated: CoCKeyPair, standard: CoCKeyPair, supercellPublicKey: Key, cipher: Cipher)
      ensures Valid()
      ensures Session(ToServer(), ToClient()) == Initial(generated, standard, supercellPublicKey)
      ensures ServerConnection.AttachedLog == [SharedKeyUpdated(supercellPublicKey)]
      ensures fresh(ClientConnection) && fresh(ServerConnection)
      ensures fresh(ClientConnection.Crypto) && fresh(ServerConnection.Crypto)
    {
      var crypto := new Crypto8(Server, generated, cipher);
      crypto.UpdateSharedKey(supercellPublicKey);
      var clientCrypto := new Crypto8(Client, standard, cipher);
      ClientConnection := new NetworkManagerAsync(clientCrypto);
      ServerConnection := new NetworkManagerAsync(crypto);
      this.cipher := cipher;
      snonce, rnonce := None, None;
    }

    /**
     * A message from the client (C -> P -> S). Only the server-side crypto
     * object and the captured client nonce change; the received buffers are
     * left as they were; a frame is sent only after every crypto operation for
     * it has run.
     */
    method ClientReceived(e: MessageReceivedEventArgs) returns (r: Outcome<Exception>)
      requires Valid() && e.Valid()
      modifies this`snonce, ServerConnection, ServerConnection.Crypto
      ensures ToServer() == ForwardToServer(cipher, old(ToServer()), e.Snapshot())
      ensures r == if |ToServer().sent| > |old(ToServer().sent)| then Pass else Fail(ArgumentException)
      ensures ServerConnection.LogAtSend
              == old(ServerConnection.LogAtSend) + if r.Pass? then [ServerConnection.Crypto.log] else []
      ensures unchanged(ClientConnection, ClientConnection.Crypto) && rnonce == old(rnonce)
      ensures unchanged(e.MessageData, e.MessageBody)
    {
      var message := e.Message;
      var crypto := ServerConnection.Crypto;
      ghost var before, received := ToServer(), e.Snapshot();
      var messageBytes: array<Byte>;
      if message.SessionRequestMessage? {
        messageBytes := e.MessageData;
      } else if message.LoginRequestMessage? {
        snonce := Some(message.nonce);
        var body := Clone(e.MessageBody);
        var ok;
        messageBytes, ok := EncryptAndReframeWithKey(crypto, e.MessageData, body);
        if !ok {
          assert ToServer() == SubstituteKey(cipher, before, received, message.nonce);
          return Fail(ArgumentException);
        }
        crypto.UpdateNonce(snonce.value, Blake);
        crypto.UpdateNonce(snonce.value, UpdateNonceType.Encrypt);
        assert ToServer().(sent := before.sent + [messageBytes[..]])
            == SubstituteKey(cipher, before, received, message.nonce);
      } else {
        var body := Clone(e.MessageBody);
        var ok;
        messageBytes, ok := EncryptAndReframe(crypto, e.MessageData, body);
        if !ok {
          assert ToServer() == Reencrypt(cipher, before, received);
          return Fail(ArgumentException);
        }
        assert ToServer().(sent := before.sent + [messageBytes[..]]) == Reencrypt(cipher, before, received);
      }
      ServerConnection.Send(messageBytes);
      r := Pass;
    }

    /**
     * A message from the server (C <- P <- S). Only the client-side crypto
     * object and the captured server nonce change. The received frame is left
     * as it was; the received body too, except on the plain re-encryption
     * path, which encrypts it in place.
     */
    method ServerReceived(e: MessageReceivedEventArgs) returns (r: Outcome<Exception>)
      requires Valid() && e.Valid()
      modifies this`rnonce, ClientConnection, ClientConnection.Crypto, e.MessageBody
      ensures ToClient() == ForwardToClient(cipher, old(ToClient()), old(e.Snapshot()))
      ensures r == if |ToClient().sent| > |old(ToClient().sent)| then Pass else Fail(ArgumentException)
      ensures ClientConnection.LogAtSend
              == old(ClientConnection.LogAtSend) + if r.Pass? then [ClientConnection.Crypto.log] else []
      ensures unchanged(ServerConnection, ServerConnection.Crypto) && snonce == old(snonce)
      ensures unchanged(e.MessageData)
      ensures e.Message.SessionSuccessMessage? || e.Message.LoginSuccessMessage? ==> unchanged(e.MessageBody)
    {
      var message := e.Message;
      var crypto := ClientConnection.Crypto;
      ghost var before, received := ToClient(), e.Snapshot();
      var messageBytes: array<Byte>;
      if message.SessionSuccessMessage? {
        messageBytes := e.MessageData;
      } else if message.LoginSuccessMessage? {
        rnonce := Some(message.nonce);
        var body := Clone(e.MessageBody);
        var ok;
        messageBytes, ok := EncryptAndReframe(crypto, e.MessageData, body);
        if !ok {
          assert ToClient() == AdoptServerKey(cipher, before, received, message.publicKey, message.nonce);
          return Fail(ArgumentException);
        }
        crypto.UpdateNonce(rnonce.value, UpdateNonceType.Encrypt);
        crypto.UpdateSharedKey(message.publicKey);
        assert ToClient().(sent := before.sent + [messageBytes[..]])
            == AdoptServerKey(cipher, before, received, message.publicKey, message.nonce);
      } else {
        var body := e.MessageBody;
        var ok;
        messageBytes, ok := EncryptAndReframe(crypto, e.MessageData, body);
        if !ok {
          assert ToClient() == Reencrypt(cipher, before, received);
          return Fail(ArgumentException);
        }
        assert ToClient().(sent := before.sent + [messageBytes[..]]) == Reencrypt(cipher, before, received);
      }
      ClientConnection.Send(messageBytes);
      r := Pass;
    }
  }
}
