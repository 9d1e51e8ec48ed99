# CoCSharp proxy core, modelled in Dafny

CoCSharp is a library for the Clash of Clans protocol, and it ships with a
man-in-the-middle proxy. For each game client, a `CoCProxyClient` holds two
connections:

- toward the client, the proxy plays the server, using the standard keypair;
- toward the game server, it plays the client, using a freshly generated
  keypair whose shared key starts as the server's well-known public key.

Each frame received on one side is decrypted by the connection layer and
handed to a handler. The handler re-encrypts the body with the crypto object
of the other side and builds the frame to forward:

- the received 7-byte header comes first;
- a LoginRequest then gets the proxy's own 32-byte public key;
- the encrypted body follows, in a zero-filled buffer the size of the
  received frame.

The handler captures the nonces of the handshake messages and feeds them to
the crypto objects. Two payload codecs of the library are also modelled:

- `BuyBuildingCommand`: four 32-bit integers, with a check that the data id
  is valid building data;
- `NpcStarSlot`: two 32-bit integers.

The model has three layers:

- **Imperative layer.** This is the source's objects:
  - `Proxy.CoCProxyClient`, which has the two connections and the two nonce
    fields;
  - `Crypto.Crypto8`, whose observable state is its direction, its keypair
    and the log of the operations the proxy's constructor and handlers apply
    to it (not the decryptions its connection performs on receipt);
  - `Networking.NetworkManagerAsync`, which records every frame sent and the
    crypto log at that moment;
  - `Commands.BuyBuildingCommand` and `Slots.NpcStarSlot`, which have their
    fields as `var`s;
  - `Streams.MessageReader` and `Streams.MessageWriter`, which model a stream
    as a sequence of 32-bit integers.
- **Specification functions.** Every imperative operation is proved against a
  function on values:
  - `Interception.ForwardToServer` and `ForwardToClient` take one direction (a
    `Link`: crypto state, captured nonce, frames sent) and return what it
    becomes;
  - `Commands.Decode` and `Slots.Decode` give what a read yields.
- **Lemmas.** These prove properties of those functions:
  - round trips of the codecs;
  - the handlers' effects on the two directions of a session are isolated
    whatever the interleaving;
  - a direction only ever grows;
  - the four-message handshake ends with exactly the expected frames and handler
    crypto operations.

The Crypto8 cipher is an arbitrary function `Cipher` from (crypto state,
plaintext) to ciphertext. It is fixed when the crypto object is built.
Nothing is assumed about it, so every property holds for any cipher.

## Model

| member | source | states |
|---|---|---|
| Commands.Encode | CoCSharp/Networking/Messages/Commands/BuyBuildingCommand.cs:76-80 | the command travels as four integers, with the building data id third; RoundTrip is its partner |
| Commands.Decode | CoCSharp/Networking/Messages/Commands/BuyBuildingCommand.cs:51-63 | a stream shorter than four integers is an end-of-stream error; otherwise the read fails, with an invalid-command error naming the third integer, exactly when that integer is not valid building data; a success re-encodes to the stream it was read from |
| Commands.RoundTrip | CoCSharp/Networking/Messages/Commands/BuyBuildingCommand.cs:51-81 | reading back what WriteCommand wrote gives the same command and the rest of the stream exactly when its data id is valid, and the invalid-command error otherwise |
| Commands.BuyBuildingCommand.constructor | CoCSharp/Networking/Messages/Commands/BuyBuildingCommand.cs:15-18 | a new command has all four fields zero |
| Commands.BuyBuildingCommand.ReadCommand | CoCSharp/Networking/Messages/Commands/BuyBuildingCommand.cs:51-63 | a null reader is an argument-null error with nothing changed; otherwise the first min(4, n) integers go into X, Y, BuildingDataID and Unknown1 in order and are consumed, fields not reached keep their values, and the result is end-of-stream, invalid-command or success; success holds exactly when Decode yields the new fields and the remaining stream |
| Commands.BuyBuildingCommand.WriteCommand | CoCSharp/Networking/Messages/Commands/BuyBuildingCommand.cs:72-81 | a null writer is an argument-null error; otherwise X, Y, BuildingDataID and Unknown1 are appended to the stream in that order |
| Commands.WriteThenRead | CoCSharp/Networking/Messages/Commands/BuyBuildingCommand.cs:51-81 | writing a command and reading the stream into a fresh command restores all four fields and uses the stream up; the read fails exactly when the data id is invalid |
| Slots.Encode | CoCSharp/Data/Slots/NpcStarSlot.cs:67-68 | the slot travels as two integers; RoundTrip is its partner |
| Slots.Decode | CoCSharp/Data/Slots/NpcStarSlot.cs:48-54 | a read fails, with end-of-stream, exactly when fewer than two integers remain; a success re-encodes to the stream it was read from |
| Slots.RoundTrip | CoCSharp/Data/Slots/NpcStarSlot.cs:48-69 | every slot read back from what WriteSlot wrote is the same slot, followed by the rest of the stream |
| Slots.NpcStarSlot.constructor | CoCSharp/Data/Slots/NpcStarSlot.cs:14-17 | a new slot has ID and Star zero |
| Slots.NpcStarSlot.WithValues | CoCSharp/Data/Slots/NpcStarSlot.cs:25-29 | the slot has the given ID and Star |
| Slots.NpcStarSlot.ReadSlot | CoCSharp/Data/Slots/NpcStarSlot.cs:48-54 | a null reader is an argument-null error with nothing changed; otherwise ID then Star are read and consumed, a field not reached keeps its value, and success holds exactly when Decode yields the new slot and the remaining stream |
| Slots.NpcStarSlot.WriteSlot | CoCSharp/Data/Slots/NpcStarSlot.cs:63-69 | a null writer is an argument-null error; otherwise ID and then Star are appended |
| Slots.WriteThenRead | CoCSharp/Data/Slots/NpcStarSlot.cs:25-69 | a slot built from two values, written and read back, always reads successfully, restores both values and uses the stream up |
| Streams.MessageReader.ReadInt32 | CoCSharp/Networking/Messages/Commands/BuyBuildingCommand.cs:55-59 | an empty stream is an end-of-stream error; otherwise the first integer is returned and consumed |
| Streams.MessageWriter.Write | CoCSharp/Networking/Messages/Commands/BuyBuildingCommand.cs:76-80 | the value is appended to the stream |
| Crypto.Crypto8.constructor | CoCSharp.Proxy/CoCProxyClient.cs:15 | a new crypto object has the given direction and keypair and has had no operation applied |
| Crypto.Crypto8.Encrypt | CoCSharp.Proxy/CoCProxyClient.cs:66 | the buffer now referenced holds the cipher of the plaintext under the state before the call; it is the same array or a fresh one; the encryption is recorded |
| Crypto.Crypto8.UpdateNonce | CoCSharp.Proxy/CoCProxyClient.cs:73-74 | the nonce and its mode (Blake or Encrypt) are recorded as the next operation |
| Crypto.Crypto8.UpdateSharedKey | CoCSharp.Proxy/CoCProxyClient.cs:16 | the public key is recorded as the next operation |
| Binary.Zeros | CoCSharp.Proxy/CoCProxyClient.cs:63 | a fresh `new byte[n]` has length n and every byte zero (also lines 78, 110 and 129) |
| Buffers.BlockCopied | CoCSharp.Proxy/CoCProxyClient.cs:69-71 | a block copy succeeds exactly when both ranges fit; then the destination keeps its length, holds the source range at the destination offset, and is unchanged elsewhere |
| Buffers.BlockCopy | CoCSharp.Proxy/CoCProxyClient.cs:83-84 | the array ends up as BlockCopied says, or is left unchanged when a range does not fit |
| Buffers.Clone | CoCSharp.Proxy/CoCProxyClient.cs:65 | the clone is a fresh array with the same contents |
| Networking.MessageReceivedEventArgs.constructor | CoCSharp.Proxy/CoCProxyClient.cs:41 | the received message, frame and body are held in two distinct fresh arrays |
| Networking.NetworkManagerAsync.constructor | CoCSharp.Proxy/CoCProxyClient.cs:19-23 | a connection uses the given crypto object and has sent nothing |
| Networking.NetworkManagerAsync.Send | CoCSharp.Proxy/CoCProxyClient.cs:88 | the buffer's contents are appended to the frames sent, together with the crypto log at that moment |
| Interception.Reframe | CoCSharp.Proxy/CoCProxyClient.cs:76-85 | the re-encrypted frame exists exactly when header plus body fit in the received frame's length; it is the received header, the body, then zeros up to that length |
| Interception.ReframeWithKey | CoCSharp.Proxy/CoCProxyClient.cs:63-71 | the LoginRequest frame exists exactly when header, key and body fit; it is the received header, the key, the body, then zeros |
| Interception.SubstituteKey | CoCSharp.Proxy/CoCProxyClient.cs:55-75 | the client nonce is captured; the body is encrypted under the old state; if the frame fits it is forwarded with the proxy's public key and the state then takes the nonce, Blake first and then Encrypt; otherwise nothing is sent and no nonce update runs |
| Interception.AdoptServerKey | CoCSharp.Proxy/CoCProxyClient.cs:106-120 | the server nonce is captured; the body is encrypted under the old state; if the frame fits it is forwarded and the state then takes the nonce and the server's public key; otherwise nothing is sent and nothing else runs |
| Interception.Reencrypt | CoCSharp.Proxy/CoCProxyClient.cs:76-85 | the nonce is kept; the body is encrypted and the reframed result is forwarded when it fits |
| Interception.ForwardToServer | CoCSharp.Proxy/CoCProxyClient.cs:51-88 | a SessionRequest is forwarded as received; any other message first encrypts its body; any forwarded frame has the received frame's length and header; direction and keypair never change; logs and frames only grow, by at most one frame; the nonce changes only on a LoginRequest |
| Interception.ForwardToClient | CoCSharp.Proxy/CoCProxyClient.cs:102-139 | the same, toward the client: a SessionSuccess passes through, and the nonce changes only on a LoginSuccess |
| Interception.Initial | CoCSharp.Proxy/CoCProxyClient.cs:12-24 | after construction, the server side has the generated keypair and only the shared-key update with the well-known key; the client side has the standard keypair and no operations; no nonces; nothing sent |
| Interception.Deliver | CoCSharp.Proxy/CoCProxyClient.cs:20-24 | an arrival is handled by its own side's handler: a client message leaves the server-to-client direction as it was and vice versa; nothing done before is revised, and at most one frame is sent |
| Interception.Run | CoCSharp.Proxy/CoCProxyClient.cs:20-24 | arrivals handled in order, interleaved arbitrarily, never revise keypairs, directions, earlier crypto operations or earlier frames, and send at most one frame per arrival |
| Interception.DirectionsIsolated | CoCSharp.Proxy/CoCProxyClient.cs:41-140 | under any interleaving of arrivals, each direction's frames sent, captured nonce and handler crypto operations are determined by the messages from its own side alone, taken in arrival order (receive-side decryptions are outside the model) |
| Interception.ForwardAllToServerExtends | CoCSharp.Proxy/CoCProxyClient.cs:51-88 | over any run of client messages, frames sent and crypto operations are never revised, at most one frame is sent per message, and keypair and direction stay fixed |
| Interception.ForwardAllToClientExtends | CoCSharp.Proxy/CoCProxyClient.cs:102-139 | the same over any run of server messages |
| Interception.HandshakeToServer | CoCSharp.Proxy/CoCProxyClient.cs:53-75 | SessionRequest then LoginRequest: the first passes through, the second is forwarded with the proxy's public key and the body encrypted under the starting state, and the state then takes the client's nonce, Blake first and then Encrypt |
| Interception.HandshakeToClient | CoCSharp.Proxy/CoCProxyClient.cs:104-120 | SessionSuccess then LoginSuccess: the first passes through, the second's body is encrypted under the starting state, which then takes the server's nonce and then the server's public key |
| Interception.Handshake | CoCSharp.Proxy/CoCProxyClient.cs:12-140 | after SessionRequest, SessionSuccess, LoginRequest and LoginSuccess, each side has forwarded exactly the expected two frames (session messages untouched; LoginRequest carrying the generated public key) and has captured the other side's nonce, and the handlers have applied exactly the expected crypto operations, in order (receive-side decryptions are outside the model) |
| Proxy.CopyFrame | CoCSharp.Proxy/CoCProxyClient.cs:83-84 | the two block copies into the zeroed buffer succeed exactly when Reframe does, and then leave its frame |
| Proxy.CopyFrameWithKey | CoCSharp.Proxy/CoCProxyClient.cs:69-71 | the three block copies succeed exactly when ReframeWithKey does, and then leave its frame |
| Proxy.EncryptAndReframe | CoCSharp.Proxy/CoCProxyClient.cs:78-84 | allocates the zeroed buffer, records one encryption of the body, and produces the Reframe of the ciphertext |
| Proxy.EncryptAndReframeWithKey | CoCSharp.Proxy/CoCProxyClient.cs:63-71 | the same for the LoginRequest frame, with the crypto object's own public key |
| Proxy.CoCProxyClient.constructor | CoCSharp.Proxy/CoCProxyClient.cs:12-24 | the server-side crypto has the generated keypair and has had the well-known public key set as the shared key, before its connection exists; the client side has the standard keypair and no operations; no nonces; nothing sent |
| Proxy.CoCProxyClient.ClientReceived | CoCSharp.Proxy/CoCProxyClient.cs:41-89 | the client-to-server direction becomes ForwardToServer of the received message; a frame is sent exactly when the handler succeeds, after all its crypto operations; a failed block copy is an argument error; the other direction and both received buffers are untouched |
| Proxy.CoCProxyClient.ServerReceived | CoCSharp.Proxy/CoCProxyClient.cs:91-140 | the server-to-client direction becomes ForwardToClient of the received message; a frame is sent exactly when the handler succeeds, after all its crypto operations; the other direction and the received frame are untouched, and so is the received body except on the plain re-encryption path |

## Left out

- Console output and the file dumps (`messages\...`, `villages\...`) are left out. They are I/O. The model ignores that a failing `messages\...` dump would throw after the crypto operations but before `Send`. It also ignores that the `villages\...` dump for an OwnHomeDataMessage, including the property chain it reads, could throw before the allocation and the Encrypt of lines 129-132; such a failure would record no encryption and send nothing.
- The sockets and the settings object are left out. The event subscriptions (`MessageReceived +=`) are modelled by `Interception.Deliver` and `Interception.Run` as functions on values: each arrival goes to its own side's handler, in arrival order. A handler call is a method call, and concurrency between the two connections is not modelled.
- How NetworkManagerAsync frames and decrypts incoming data, and the `MessageFullyRead`/`Exception` warnings, are left out. A received message arrives as its decoded message, frame and body.
- `Interception.DirectionsIsolated`: the receiving connection decrypts each arriving message with the same Crypto8 that the other handler encrypts with. Those decryptions are not in the crypto log. The lemma shows isolation of the handlers' operations only. It does not show that the ciphertext forwarded to one side is independent of the other side's traffic.
- `Interception.Handshake`: the client and server connections' decryptions of the handshake messages are not in the crypto logs. The LoginRequest and LoginSuccess bodies are shown encrypted under the state as the handlers left it, not under the state after those decryptions.
- `Proxy.CoCProxyClient.constructor`: the model's constructor is atomic. In the source, ClientReceived is subscribed at line 20, but ServerConnection is assigned only at line 23. A client message handled in that window would dereference a null ServerConnection at line 59, 66, 81 or 88. This is an observation from reading the code; nothing was executed. `ClientReceived` requires the constructed state, so the window is not modelled.
- Crypto8's internals are left out: NaCl boxes, Blake2b nonces and key generation. The cipher is a parameter. The generated keypair, the standard keypair and the well-known server public key are also parameters.
- The client connection's default crypto object is built inside NetworkManagerAsync, which is not part of this model. It is modelled as a fresh client-direction Crypto8 with the standard keypair.
- `Message.HeaderSize` (7) and `CoCKeyPair.KeyLength` (32) are defined outside the modelled files. They are constants of the protocol.
- `IDConverter.IsValidData<Building>` is a function parameter, because its data tables are not part of this model.
- MessageReader and MessageWriter are not part of this model. A stream is a sequence of 32-bit integers, and reading past its end is the end-of-stream error. Byte order is not modelled.
- Nonce byte arrays are modelled as values. `Nonce.Clone()` is therefore implicit, and aliasing of the nonce arrays is not modelled.
- An exception ends the handler. It is returned as a `Fail` outcome; what the caller does with it is not modelled.
- `Proxy.CoCProxyClient.ServerReceived`: the body dump after in-place encryption is not modelled. On the passthrough path, the model says only that the body now holds whatever Encrypt left.
- `Commands.BuyBuildingCommand.ID`: only the constant 500 is modelled. Dispatch by command id is not part of this model.
- The handlers behave as follows, and the model follows them:
  - the forwarded frame keeps the received frame's length, its header is copied verbatim, and its length field is not rewritten;
  - a body that does not fit gives an argument error, with nothing sent;
  - the handlers do not detect crypto-state or handshake-order violations.
