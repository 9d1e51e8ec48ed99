/**
 * What the proxy does with each received message, as functions of values:
 * the frame it forwards, the crypto operations it applies and the nonce it
 * captures, for each of the two directions, and a whole session as the
 * sequence of messages arriving from either side.
 */
module Interception {
  import opened Binary
  import opened Wrappers
  import opened Crypto
  import opened Buffers
  import opened Messages

  /**
   * One direction of the proxy: the crypto object of the connection it sends
   * on, the nonce it captured from the handshake, and the frames sent so far.
   */
  datatype Link = Link(crypto: CryptoState, nonce: Option<seq<Byte>>, sent: seq<seq<Byte>>)

  /**
   * The forwarded frame on a path that only re-encrypts: a zeroed buffer the
   * size of the received frame, the received header copied to its start and
   * the new body after it.
   */
  function Reframe(data: seq<Byte>, body: seq<Byte>): (r: Option<seq<Byte>>)
    ensures r.Some? <==> HeaderSize + |body| <= |data|
    ensures r.Some? ==> r.value == data[..HeaderSize] + body + Zeros(|data| - HeaderSize - |body|)
  {
    match BlockCopied(data, 0, Zeros(|data|), 0, HeaderSize)
    case None => None
    case Some(header) => BlockCopied(body, 0, header, HeaderSize, |body|)
  }

  /**
   * The forwarded LoginRequest frame: as Reframe, with `key` written between
   * the header and the new body.
   */
  function ReframeWithKey(data: seq<Byte>, key: Key, body: seq<Byte>): (r: Option<seq<Byte>>)
    ensures r.Some? <==> HeaderSize + KeyLength + |body| <= |data|
    ensures r.Some? ==> r.value == data[..HeaderSize] + key + body + Zeros(|data| - HeaderSize - KeyLength - |body|)
  {
    match BlockCopied(data, 0, Zeros(|data|), 0, HeaderSize)
    case None => None
    case Some(header) =>
      match BlockCopied(key, 0, header, HeaderSize, KeyLength)
      case None => None
      case Some(withKey) => BlockCopied(body, 0, withKey, HeaderSize + KeyLength, |body|)
  }

  function Last<T>(s: seq<T>): T
    requires s != []
  {
    s[|s| - 1]
  }

  /**
   * The LoginRequest path: the client's nonce is captured, the body is
   * encrypted under the server-side state as it was, and the frame forwarded
   * carries the proxy's own public key after the received header. Only once
   * that frame is built does the state take the nonce, Blake first and then
   * Encrypt. A frame that does not fit throws: nothing is sent and neither
   * nonce update runs.
   */
  function SubstituteKey(cipher: Cipher, l: Link, e: Received, nonce: seq<Byte>): (r: Link)
    ensures r.nonce == Some(nonce)
    ensures r.crypto.direction == l.crypto.direction && r.crypto.keyPair == l.crypto.keyPair
    ensures
      var encrypted := cipher(l.crypto, e.body);
      var fits := HeaderSize + KeyLength + |encrypted| <= |e.data|;
      && r.sent == l.sent + (if fits then [ReframeWithKey(e.data, l.crypto.keyPair.publicKey, encrypted).value] else [])
      && r.crypto.log == l.crypto.log + [Encrypted(e.body)]
                         + (if fits then [NonceUpdated(nonce, Blake), NonceUpdated(nonce, UpdateNonceType.Encrypt)] else [])
  {
    var encrypted := cipher(l.crypto, e.body);
    var afterEncrypt := l.crypto.(log := l.crypto.log + [Encrypted(e.body)]);
    match ReframeWithKey(e.data, l.crypto.keyPair.publicKey, encrypted)
    case None => Link(afterEncrypt, Some(nonce), l.sent)
    case Some(frame) =>
      var updated := afterEncrypt.log + [NonceUpdated(nonce, Blake), NonceUpdated(nonce, UpdateNonceType.Encrypt)];
      Link(afterEncrypt.(log := updated), Some(nonce), l.sent + [frame])
  }

  /**
   * The LoginSuccess path: the server's nonce is captured, the body is
   * encrypted under the client-side state as it was and forwarded after the
   * received header, key material untouched. Only then does the state take
   * the nonce (Encrypt) and after it the server's public key as shared key.
   */
  function AdoptServerKey(cipher: Cipher, l: Link, e: Received, publicKey: seq<Byte>, nonce: seq<Byte>): (r: Link)
    ensures r.nonce == Some(nonce)
    ensures r.crypto.direction == l.crypto.direction && r.crypto.keyPair == l.crypto.keyPair
    ensures
      var encrypted := cipher(l.crypto, e.body);
      var fits := HeaderSize + |encrypted| <= |e.data|;
      && r.sent == l.sent + (if fits then [Reframe(e.data, encrypted).value] else [])
      && r.crypto.log == l.crypto.log + [Encrypted(e.body)]
                         + (if fits then [NonceUpdated(nonce, UpdateNonceType.Encrypt), SharedKeyUpdated(publicKey)] else [])
  {
    var encrypted := cipher(l.crypto, e.body);
    var afterEncrypt := l.crypto.(log := l.crypto.log + [Encrypted(e.body)]);
    match Reframe(e.data, encrypted)
    case None => Link(afterEncrypt, Some(nonce), l.sent)
    case Some(frame) =>
      var updated := afterEncrypt.log + [NonceUpdated(nonce, UpdateNonceType.Encrypt), SharedKeyUpdated(publicKey)];
      Link(afterEncrypt.(log := updated), Some(nonce), l.sent + [frame])
  }

  /**
   * Every other message, in either direction: the body is encrypted under the
   * state of the link's crypto object and forwarded after the received header;
   * the captured nonce stays as it was.
   */
  function Reencrypt(cipher: Cipher, l: Link, e: Received): (r: Link)
    ensures r.nonce == l.nonce
    ensures r.crypto == l.crypto.(log := l.crypto.log + [Encrypted(e.body)])
    ensures
      var encrypted := cipher(l.crypto, e.body);
      r.sent == l.sent + (if HeaderSize + |encrypted| <= |e.data| then [Reframe(e.data, encrypted).value] else [])
  {
    var encrypted := cipher(l.crypto, e.body);
    var afterEncrypt := l.crypto.(log := l.crypto.log + [Encrypted(e.body)]);
    match Reframe(e.data, encrypted)
    case None => l.(crypto := afterEncrypt)
    case Some(frame) => l.(crypto := afterEncrypt, sent := l.sent + [frame])
  }

  /**
   * A message from the client, forwarded to the server (ClientReceived). A
   * SessionRequest passes through untouched; every other body is first
   * encrypted under the server-side state, and any frame forwarded has the
   * received frame's length and header.
   */
  function ForwardToServer(cipher: Cipher, l: Link, e: Received): (r: Link)
    ensures r.crypto.direction == l.crypto.direction && r.crypto.keyPair == l.crypto.keyPair
    ensures l.crypto.log <= r.crypto.log
    ensures l.sent <= r.sent && |r.sent| <= |l.sent| + 1
    ensures e.message.SessionRequestMessage? ==> r == l.(sent := l.sent + [e.data])
    ensures !e.message.SessionRequestMessage? ==>
      |r.crypto.log| > |l.crypto.log| && r.crypto.log[|l.crypto.log|] == Encrypted(e.body)
    ensures !e.message.SessionRequestMessage? && |r.sent| > |l.sent| ==>
      |Last(r.sent)| == |e.data| && HeaderSize <= |e.data| && Last(r.sent)[..HeaderSize] == e.data[..HeaderSize]
    ensures !e.message.LoginRequestMessage? ==> r.nonce == l.nonce
  {
    match e.message
    case SessionRequestMessage => l.(sent := l.sent + [e.data])
    case LoginRequestMessage(_, nonce) => SubstituteKey(cipher, l, e, nonce)
    case _ => Reencrypt(cipher, l, e)
  }

  /**
   * A message from the server, forwarded to the client (ServerReceived). A
   * SessionSuccess passes through untouched; every other body is first
   * encrypted under the client-side state, and any frame forwarded has the
   * received frame's length and header.
   */
  function ForwardToClient(cipher: Cipher, l: Link, e: Received): (r: Link)
    ensures r.crypto.direction == l.crypto.direction && r.crypto.keyPair == l.crypto.keyPair
    ensures l.crypto.log <= r.crypto.log
    ensures l.sent <= r.sent && |r.sent| <= |l.sent| + 1
    ensures e.message.SessionSuccessMessage? ==> r == l.(sent := l.sent + [e.data])
    ensures !e.message.SessionSuccessMessage? ==>
      |r.crypto.log| > |l.crypto.log| && r.crypto.log[|l.crypto.log|] == Encrypted(e.body)
    ensures !e.message.SessionSuccessMessage? && |r.sent| > |l.sent| ==>
      |Last(r.sent)| == |e.data| && HeaderSize <= |e.data| && Last(r.sent)[..HeaderSize] == e.data[..HeaderSize]
    ensures !e.message.LoginSuccessMessage? ==> r.nonce == l.nonce
  {
    match e.message
    case SessionSuccessMessage => l.(sent := l.sent + [e.data])
    case LoginSuccessMessage(publicKey, nonce) => AdoptServerKey(cipher, l, e, publicKey, nonce)
    case _ => Reencrypt(cipher, l, e)
  }

  /** Both directions of one proxy session. */
  datatype Session = Session(toServer: Link, toClient: Link)

  /** A message arriving at the proxy, tagged with the side it came from. */
  datatype Event = FromClient(received: Received) | FromServer(received: Received)

  /**
   * The session right after the proxy is built: the server-side state (the
   * generated keypair) has had the well-known public key set as its shared
   * key; no operation of the proxy has touched the client-side state (the
   * standard keypair) yet.
   */
  function Initial(generated: CoCKeyPair, standard: CoCKeyPair, supercellPublicKey: Key): (r: Session)
    ensures r.toServer.crypto.direction == Server && r.toServer.crypto.keyPair == generated
    ensures r.toServer.crypto.log == [SharedKeyUpdated(supercellPublicKey)]
    ensures r.toClient.crypto.direction == Client && r.toClient.crypto.keyPair == standard
    ensures r.toClient.crypto.log == []
    ensures r.toServer.nonce == None && r.toClient.nonce == None
    ensures r.toServer.sent == [] && r.toClient.sent == []
  {
    Session(Link(CryptoState(Server, generated, [SharedKeyUpdated(supercellPublicKey)]), None, []),
            Link(CryptoState(Client, standard, []), None, []))
  }

  /**
   * One message handled by the handler of the side it came from: the other
   * direction is left as it was, and at most one frame is sent.
   */
  function Deliver(cipher: Cipher, s: Session, ev: Event): (r: Session)
    ensures ev.FromClient? ==> r.toClient == s.toClient
    ensures ev.FromServer? ==> r.toServer == s.toServer
    ensures Grows(s, r) && |r.toServer.sent| + |r.toClient.sent| <= |s.toServer.sent| + |s.toClient.sent| + 1
  {
    match ev
    case FromClient(e) => s.(toServer := ForwardToServer(cipher, s.toServer, e))
    case FromServer(e) => s.(toClient := ForwardToClient(cipher, s.toClient, e))
  }

  /**
   * Neither direction of `s` is revised in `r`: keypairs and directions are
   * kept, and crypto logs and frames sent only have entries appended.
   */
  ghost predicate Grows(s: Session, r: Session)
  {
    && r.toServer.crypto.direction == s.toServer.crypto.direction
    && r.toServer.crypto.keyPair == s.toServer.crypto.keyPair
    && r.toClient.crypto.direction == s.toClient.crypto.direction
    && r.toClient.crypto.keyPair == s.toClient.crypto.keyPair
    && s.toServer.crypto.log <= r.toServer.crypto.log && s.toClient.crypto.log <= r.toClient.crypto.log
    && s.toServer.sent <= r.toServer.sent && s.toClient.sent <= r.toClient.sent
  }

  /**
   * A session handling `evs` in the order they arrive, interleaved arbitrarily:
   * nothing already done is revised, and at most one frame is sent per arrival.
   */
  function Run(cipher: Cipher, s: Session, evs: seq<Event>): (r: Session)
    ensures Grows(s, r)
    ensures |r.toServer.sent| + |r.toClient.sent| <= |s.toServer.sent| + |s.toClient.sent| + |evs|
    decreases |evs|
  {
    if evs == [] then s else Run(cipher, Deliver(cipher, s, evs[0]), evs[1..])
  }

  /** The client's messages among `evs`, in arrival order. */
  function ClientMessages(evs: seq<Event>): seq<Received>
  {
    if evs == [] then []
    else (if evs[0].FromClient? then [evs[0].received] else []) + ClientMessages(evs[1..])
  }

  /** The server's messages among `evs`, in arrival order. */
  function ServerMessages(evs: seq<Event>): seq<Received>
  {
    if evs == [] then []
    else (if evs[0].FromServer? then [evs[0].received] else []) + ServerMessages(evs[1..])
  }

  /** The client-to-server direction handling `es` and nothing else. */
  function ForwardAllToServer(cipher: Cipher, l: Link, es: seq<Received>): Link
    decreases |es|
  {
    if es == [] then l else ForwardAllToServer(cipher, ForwardToServer(cipher, l, es[0]), es[1..])
  }

  /** The server-to-client direction handling `es` and nothing else. */
  function ForwardAllToClient(cipher: Cipher, l: Link, es: seq<Received>): Link
    decreases |es|
  {
    if es == [] then l else ForwardAllToClient(cipher, ForwardToClient(cipher, l, es[0]), es[1..])
  }

  /**
   * Directional isolation of the handlers and per-direction order: whatever
   * the interleaving, what is sent to the server, the handlers' operations on
   * the server-side crypto object and the captured client nonce depend only on
   * the client's messages, taken in the order they arrived; and symmetrically
   * for the other direction. The receiving connections' own decryptions, which
   * use the same crypto objects, are not part of a Link.
   */
  lemma {:induction false} DirectionsIsolated(cipher: Cipher, s: Session, evs: seq<Event>)
    ensures Run(cipher, s, evs).toServer == ForwardAllToServer(cipher, s.toServer, ClientMessages(evs))
    ensures Run(cipher, s, evs).toClient == ForwardAllToClient(cipher, s.toClient, ServerMessages(evs))
    decreases |evs|
  {
    if evs != [] {
      DirectionsIsolated(cipher, Deliver(cipher, s, evs[0]), evs[1..]);
      var e := evs[0].received;
      if evs[0].FromClient? {
        assert ClientMessages(evs) == [e] + ClientMessages(evs[1..]);
        assert ([e] + ClientMessages(evs[1..]))[1..] == ClientMessages(evs[1..]);
        assert ServerMessages(evs) == ServerMessages(evs[1..]);
      } else {
        assert ServerMessages(evs) == [e] + ServerMessages(evs[1..]);
        assert ([e] + ServerMessages(evs[1..]))[1..] == ServerMessages(evs[1..]);
        assert ClientMessages(evs) == ClientMessages(evs[1..]);
      }
    }
  }

  /**
   * Over any number of client messages the link only grows: earlier frames
   * and crypto operations are never revised, at most one frame is sent per
   * message, and the keypair and direction never change.
   */
  lemma {:induction false} ForwardAllToServerExtends(cipher: Cipher, l: Link, es: seq<Received>)
    ensures var r := ForwardAllToServer(cipher, l, es);
      && r.crypto.direction == l.crypto.direction && r.crypto.keyPair == l.crypto.keyPair
      && l.crypto.log <= r.crypto.log
      && l.sent <= r.sent && |r.sent| <= |l.sent| + |es|
    decreases |es|
  {
    if es != [] {
      ForwardAllToServerExtends(cipher, ForwardToServer(cipher, l, es[0]), es[1..]);
    }
  }

  /** The server-to-client counterpart of ForwardAllToServerExtends. */
  lemma {:induction false} ForwardAllToClientExtends(cipher: Cipher, l: Link, es: seq<Received>)
    ensures var r := ForwardAllToClient(cipher, l, es);
      && r.crypto.direction == l.crypto.direction && r.crypto.keyPair == l.crypto.keyPair
      && l.crypto.log <= r.crypto.log
      && l.sent <= r.sent && |r.sent| <= |l.sent| + |es|
    decreases |es|
  {
    if es != [] {
      ForwardAllToClientExtends(cipher, ForwardToClient(cipher, l, es[0]), es[1..]);
    }
  }

  /**
   * The client's half of the handshake: the SessionRequest passes through, and
   * the LoginRequest is forwarded with the generated public key and a body
   * encrypted under the state seeded with the well-known key, which then takes
   * the client's nonce, Blake first and then Encrypt.
   */
  lemma HandshakeToServer(cipher: Cipher, l0: Link, publicKey: Key, sessionRequest: Received, loginRequest: Received)
    requires l0.nonce == None && l0.sent == [] && l0.crypto.keyPair.publicKey == publicKey
    requires sessionRequest.message.SessionRequestMessage? && loginRequest.message.LoginRequestMessage?
    requires HeaderSize + KeyLength + |cipher(l0.crypto, loginRequest.body)| <= |loginRequest.data|
    ensures
      var r := ForwardAllToServer(cipher, l0, [sessionRequest, loginRequest]);
      var nc := loginRequest.message.nonce;
      && r.nonce == Some(nc)
      && r.crypto.log == l0.crypto.log + [Encrypted(loginRequest.body), NonceUpdated(nc, Blake), NonceUpdated(nc, UpdateNonceType.Encrypt)]
      && r.sent
         == [sessionRequest.data,
             loginRequest.data[..HeaderSize] + publicKey + cipher(l0.crypto, loginRequest.body)
             + Zeros(|loginRequest.data| - HeaderSize - KeyLength - |cipher(l0.crypto, loginRequest.body)|)]
  {
    var up1 := ForwardToServer(cipher, l0, sessionRequest);
    var up2 := ForwardToServer(cipher, up1, loginRequest);
    assert ForwardAllToServer(cipher, l0, [sessionRequest, loginRequest]) == up2 by {
      assert [sessionRequest, loginRequest][1..] == [loginRequest];
      assert [loginRequest][1..] == [];
      assert ForwardAllToServer(cipher, l0, [sessionRequest, loginRequest]) == ForwardAllToServer(cipher, up1, [loginRequest]);
      assert ForwardAllToServer(cipher, up2, []) == up2;
    }
    assert up1.crypto == l0.crypto;
  }

  /**
   * The server's half of the handshake: the SessionSuccess passes through, and
   * the LoginSuccess body is encrypted under the state as it was, which then
   * takes the server's nonce and then the server's public key.
   */
  lemma HandshakeToClient(cipher: Cipher, l0: Link, sessionSuccess: Received, loginSuccess: Received)
    requires l0.nonce == None && l0.sent == []
    requires sessionSuccess.message.SessionSuccessMessage? && loginSuccess.message.LoginSuccessMessage?
    requires HeaderSize + |cipher(l0.crypto, loginSuccess.body)| <= |loginSuccess.data|
    ensures
      var r := ForwardAllToClient(cipher, l0, [sessionSuccess, loginSuccess]);
      var ns := loginSuccess.message.nonce;
      && r.nonce == Some(ns)
      && r.crypto.log
         == l0.crypto.log + [Encrypted(loginSuccess.body), NonceUpdated(ns, UpdateNonceType.Encrypt),
                             SharedKeyUpdated(loginSuccess.message.publicKey)]
      && r.sent
         == [sessionSuccess.data,
             loginSuccess.data[..HeaderSize] + cipher(l0.crypto, loginSuccess.body)
             + Zeros(|loginSuccess.data| - HeaderSize - |cipher(l0.crypto, loginSuccess.body)|)]
  {
    var down1 := ForwardToClient(cipher, l0, sessionSuccess);
    var down2 := ForwardToClient(cipher, down1, loginSuccess);
    assert ForwardAllToClient(cipher, l0, [sessionSuccess, loginSuccess]) == down2 by {
      assert [sessionSuccess, loginSuccess][1..] == [loginSuccess];
      assert [loginSuccess][1..] == [];
      assert ForwardAllToClient(cipher, l0, [sessionSuccess, loginSuccess]) == ForwardAllToClient(cipher, down1, [loginSuccess]);
      assert ForwardAllToClient(cipher, down2, []) == down2;
    }
    assert down1.crypto == l0.crypto;
  }

  /** The handshake arrivals, split by the side they came from. */
  lemma HandshakeArrivals(sessionRequest: Received, sessionSuccess: Received, loginRequest: Received, loginSuccess: Received)
    ensures var evs := [FromClient(sessionRequest), FromServer(sessionSuccess), FromClient(loginRequest), FromServer(loginSuccess)];
      && ClientMessages(evs) == [sessionRequest, loginRequest]
      && ServerMessages(evs) == [sessionSuccess, loginSuccess]
  {
    var evs := [FromClient(sessionRequest), FromServer(sessionSuccess), FromClient(loginRequest), FromServer(loginSuccess)];
    var tail1, tail2, tail3 := evs[1..], evs[2..], evs[3..];
    assert tail1[1..] == tail2 && tail2[1..] == tail3 && tail3[1..] == [];
    assert ClientMessages(tail3) == [] && ServerMessages(tail3) == [loginSuccess];
    assert ClientMessages(tail2) == [loginRequest] && ServerMessages(tail2) == [loginSuccess];
    assert ClientMessages(tail1) == [loginRequest] && ServerMessages(tail1) == [sessionSuccess, loginSuccess];
  }

  /**
   * The four-message handshake, end to end, as far as the handlers act. The
   * two session messages pass through untouched; the LoginRequest reaches the
   * server carrying the proxy's generated public key and a body encrypted
   * under the state seeded with the well-known key, after which that state
   * takes the client's nonce (Blake, then Encrypt); the LoginSuccess body is
   * encrypted under the client-side state on which no handler has yet acted,
   * which then takes the server's nonce and then the server's public key.
   */
  lemma Handshake(cipher: Cipher, generated: CoCKeyPair, standard: CoCKeyPair, supercellPublicKey: Key,
                  sessionRequest: Received, sessionSuccess: Received, loginRequest: Received, loginSuccess: Received)
    requires sessionRequest.message.SessionRequestMessage? && sessionSuccess.message.SessionSuccessMessage?
    requires loginRequest.message.LoginRequestMessage? && loginSuccess.message.LoginSuccessMessage?
    requires HeaderSize + KeyLength
             + |cipher(Initial(generated, standard, supercellPublicKey).toServer.crypto, loginRequest.body)|
             <= |loginRequest.data|
    requires HeaderSize + |cipher(Initial(generated, standard, supercellPublicKey).toClient.crypto, loginSuccess.body)|
             <= |loginSuccess.data|
    ensures
      var s0 := Initial(generated, standard, supercellPublicKey);
      var s := Run(cipher, s0, [FromClient(sessionRequest), FromServer(sessionSuccess),
                                FromClient(loginRequest), FromServer(loginSuccess)]);
      var nc := loginRequest.message.nonce;
      var ns := loginSuccess.message.nonce;
      && s.toServer.nonce == Some(nc)
      && s.toServer.crypto.log
         == [SharedKeyUpdated(supercellPublicKey), Encrypted(loginRequest.body),
             NonceUpdated(nc, Blake), NonceUpdated(nc, UpdateNonceType.Encrypt)]
      && s.toServer.sent
         == [sessionRequest.data,
             loginRequest.data[..HeaderSize] + generated.publicKey + cipher(s0.toServer.crypto, loginRequest.body)
             + Zeros(|loginRequest.data| - HeaderSize - KeyLength - |cipher(s0.toServer.crypto, loginRequest.body)|)]
      && s.toClient.nonce == Some(ns)
      && s.toClient.crypto.log
         == [Encrypted(loginSuccess.body), NonceUpdated(ns, UpdateNonceType.Encrypt),
             SharedKeyUpdated(loginSuccess.message.publicKey)]
      && s.toClient.sent
         == [sessionSuccess.data,
             loginSuccess.data[..HeaderSize] + cipher(s0.toClient.crypto, loginSuccess.body)
             + Zeros(|loginSuccess.data| - HeaderSize - |cipher(s0.toClient.crypto, loginSuccess.body)|)]
  {
    var s0 := Initial(generated, standard, supercellPublicKey);
    var evs := [FromClient(sessionRequest), FromServer(sessionSuccess), FromClient(loginRequest), FromServer(loginSuccess)];
    DirectionsIsolated(cipher, s0, evs);
    HandshakeArrivals(sessionRequest, sessionSuccess, loginRequest, loginSuccess);
    HandshakeToServer(cipher, s0.toServer, generated.publicKey, sessionRequest, loginRequest);
    HandshakeToClient(cipher, s0.toClient, sessionSuccess, loginSuccess);
  }
}
