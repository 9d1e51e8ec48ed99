/**
 * The per-connection crypto object (Crypto8). Its cipher, nonce mixing and
 * key agreement belong to a cryptographic library outside this model, so the
 * object is abstract: its state is its direction, its keypair and the log of
 * every operation the proxy's constructor and handlers apply to it, and
 * encryption is an arbitrary function of that state supplied when the object
 * is built. The decryptions a connection performs with the same object on
 * receipt are outside this model and are not in the log.
 */
module Crypto {
  import opened Binary

  /** Length of a public or private key, in bytes (CoCKeyPair.KeyLength). */
  const KeyLength: nat := 32

  type Key = k: seq<Byte> | |k| == KeyLength witness seq(32, _ => 0)

  datatype CoCKeyPair = CoCKeyPair(publicKey: Key, privateKey: Key)

  /** The side a crypto object acts for. */
  datatype MessageDirection = Client | Server

  /** The two ways UpdateNonce folds a nonce into the state. */
  datatype UpdateNonceType = Blake | Encrypt

  /** One operation applied to a crypto object, as it appears in its log. */
  datatype CryptoOp =
    | Encrypted(plaintext: seq<Byte>)
    | NonceUpdated(nonce: seq<Byte>, mode: UpdateNonceType)
    | SharedKeyUpdated(publicKey: seq<Byte>)

  /** Everything the output of Encrypt may depend on. */
  datatype CryptoState = CryptoState(direction: MessageDirection, keyPair: CoCKeyPair, log: seq<CryptoOp>)

  /** The library's encryption: ciphertext as a function of state and plaintext. */
  type Cipher = (CryptoState, seq<Byte>) -> seq<Byte>

  class Crypto8 {
    const Direction: MessageDirection
    const KeyPair: CoCKeyPair
    const cipher: Cipher
    var log: seq<CryptoOp>

    function State(): CryptoState
      reads this
    {
      CryptoState(Direction, KeyPair, log)
    }

    constructor (direction: MessageDirection, keyPair: CoCKeyPair, cipher: Cipher)
      ensures State() == CryptoState(direction, keyPair, []) && this.cipher == cipher
    {
      Direction, KeyPair, this.cipher := direction, keyPair, cipher;
      log := [];
    }

    /**
     * Encrypt(ref byte[] data): the ciphertext either overwrites `data` or comes
     * back in a new array; in both cases it is the cipher applied to the state
     * before the call.
     */
    method Encrypt(data: array<Byte>) returns (data': array<Byte>)
      modifies this, data
      ensures data' == data || fresh(data')
      ensures data'[..] == cipher(old(State()), old(data[..]))
      ensures log == old(log) + [Encrypted(old(data[..]))]
    {
      var plaintext := data[..];
      var ciphertext := cipher(State(), plaintext);
      if |ciphertext| == data.Length {
        forall i | 0 <= i < data.Length {
          data[i] := ciphertext[i];
        }
        data' := data;
      } else {
        data' := new Byte[|ciphertext|](i requires 0 <= i < |ciphertext| => ciphertext[i]);
      }
      log := log + [Encrypted(plaintext)];
    }

    method UpdateNonce(nonce: seq<Byte>, mode: UpdateNonceType)
      modifies this
      ensures log == old(log) + [NonceUpdated(nonce, mode)]
    {
      log := log + [NonceUpdated(nonce, mode)];
    }

    method UpdateSharedKey(publicKey: seq<Byte>)
      modifies this
      ensures log == old(log) + [SharedKeyUpdated(publicKey)]
    {
      log := log + [SharedKeyUpdated(publicKey)];
    }
  }
}
