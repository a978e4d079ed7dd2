/** The typed errors of the elliptic-curve abstraction, the conversions between
    them, the adapters from the `ed25519_compact` crate's error enum, and the
    signatures of the curve traits (`cyphergraphy/src/lib.rs`). */
module Cyphergraphy {
  import opened Results

  /** `amplify::IoError`, opaque here. */
  type IoError(==)

  newtype u8 = x: int | 0 <= x < 0x100

  /** The `usize` an invalid key length is reported in (64-bit target). */
  newtype usize = x: int | 0 <= x < 0x1_0000_0000_0000_0000

  /** `EcSkInvalid`: "invalid secret key". */
  datatype EcSkInvalid = EcSkInvalid

  /** `EcPkInvalid`: "invalid public key". */
  datatype EcPkInvalid = EcPkInvalid

  /** `EcdhError`. */
  datatype EcdhError = WeakPk | InvalidPk(pk: EcPkInvalid) | InvalidSk(sk: EcSkInvalid)

  /** `EcSerError`. */
  datatype EcSerError =
    | Io(io: IoError)
    | InvalidKeyLength(len: usize)
    | InvalidKey(key: EcPkInvalid)
    | DataEncoding(text: string)

  /** `ed25519_compact::Error`, all ten variants. */
  datatype Ed25519Error =
    | InvalidPublicKey
    | WeakPublicKey
    | InvalidSecretKey
    | SignatureMismatch
    | InvalidSignature
    | InvalidSeed
    | InvalidBlind
    | InvalidNoise
    | ParseError
    | NonCanonical

  // ---------------------------------------------------------------------------
  // Derived `From` injections

  /** `#[from] InvalidPk`: `From<EcPkInvalid> for EcdhError`. */
  function EcdhErrorFromPk(e: EcPkInvalid): (r: EcdhError)
    ensures r.InvalidPk? && r.pk == e
  {
    InvalidPk(e)
  }

  /** `#[from] InvalidSk`: `From<EcSkInvalid> for EcdhError`. */
  function EcdhErrorFromSk(e: EcSkInvalid): (r: EcdhError)
    ensures r.InvalidSk? && r.sk == e
  {
    InvalidSk(e)
  }

  /** `#[from] InvalidKey`: `From<EcPkInvalid> for EcSerError`. */
  function EcSerErrorFromPk(e: EcPkInvalid): (r: EcSerError)
    ensures r.InvalidKey? && r.key == e
  {
    InvalidKey(e)
  }

  /** `#[from] Io`: `From<amplify::IoError> for EcSerError`. */
  function EcSerErrorFromIo(e: IoError): (r: EcSerError)
    ensures r.Io? && r.io == e
  {
    Io(e)
  }

  // ---------------------------------------------------------------------------
  // Adapters from `ed25519_compact::Error`; every `unreachable!` arm is a
  // precondition the caller must meet.

  /** The variants `From<Error> for EcPkInvalid` does not reject as unreachable. */
  predicate PkConvertible(err: Ed25519Error)
  {
    match err
    case InvalidPublicKey => true
    case _ => false
  }

  /** The variants `From<Error> for EcSkInvalid` does not reject as unreachable. */
  predicate SkConvertible(err: Ed25519Error)
  {
    match err
    case InvalidSecretKey => true
    case _ => false
  }

  /** The variants `From<Error> for EcdhError` does not reject as unreachable. */
  predicate EcdhConvertible(err: Ed25519Error)
  {
    match err
    case WeakPublicKey => true
    case InvalidPublicKey => true
    case InvalidSecretKey => true
    case _ => false
  }

  /** `From<ed25519_compact::Error> for EcPkInvalid`. */
  function EcPkInvalidFromEd25519(err: Ed25519Error): (r: EcPkInvalid)
    requires PkConvertible(err)
    ensures r == EcPkInvalid
  {
    match err
    case InvalidPublicKey => EcPkInvalid
  }

  /** `From<ed25519_compact::Error> for EcSkInvalid`. */
  function EcSkInvalidFromEd25519(err: Ed25519Error): (r: EcSkInvalid)
    requires SkConvertible(err)
    ensures r == EcSkInvalid
  {
    match err
    case InvalidSecretKey => EcSkInvalid
  }

  /** `From<ed25519_compact::Error> for EcSerError`: total; every error becomes
      `DataEncoding` carrying the error's display text, given as `display`. */
  function EcSerErrorFromEd25519(err: Ed25519Error, display: Ed25519Error -> string): (r: EcSerError)
    ensures r.DataEncoding? && r.text == display(err)
  {
    DataEncoding(display(err))
  }

  /** `From<ed25519_compact::Error> for EcdhError`. */
  function EcdhErrorFromEd25519(err: Ed25519Error): (r: EcdhError)
    requires EcdhConvertible(err)
    ensures r == WeakPk <==> err == WeakPublicKey
    ensures r.InvalidPk? <==> err == InvalidPublicKey
    ensures r.InvalidSk? <==> err == InvalidSecretKey
  {
    match err
    case WeakPublicKey => WeakPk
    case InvalidPublicKey => InvalidPk(EcPkInvalid)
    case InvalidSecretKey => InvalidSk(EcSkInvalid)
  }

  // ---------------------------------------------------------------------------
  // Properties of the adapters

  /** The reachable domains: the ECDH adapter accepts exactly the weak-key
      variant plus what the public-key and secret-key adapters accept; those
      two are disjoint, and the weak-key variant is outside the public-key one. */
  lemma ConvertibleDomains(err: Ed25519Error)
    ensures EcdhConvertible(err) <==> err == WeakPublicKey || PkConvertible(err) || SkConvertible(err)
    ensures !(PkConvertible(err) && SkConvertible(err))
    ensures EcdhConvertible(WeakPublicKey) && !PkConvertible(WeakPublicKey) && !SkConvertible(WeakPublicKey)
  {
  }

  /** Going through the key adapter and then the derived injection gives the
      same `EcdhError` as the ECDH adapter. */
  lemma EcdhAdapterFactorsThroughKeyAdapters(err: Ed25519Error)
    requires PkConvertible(err) || SkConvertible(err)
    ensures PkConvertible(err) ==> EcdhErrorFromEd25519(err) == EcdhErrorFromPk(EcPkInvalidFromEd25519(err))
    ensures SkConvertible(err) ==> EcdhErrorFromEd25519(err) == EcdhErrorFromSk(EcSkInvalidFromEd25519(err))
  {
  }

  /** On its reachable domain the ECDH adapter is a bijection onto `EcdhError`:
      distinct variants stay distinct and every `EcdhError` is produced. */
  lemma {:induction false} EcdhAdapterBijective(x: EcdhError, e1: Ed25519Error, e2: Ed25519Error)
    ensures EcdhConvertible(e1) && EcdhConvertible(e2) && EcdhErrorFromEd25519(e1) == EcdhErrorFromEd25519(e2) ==> e1 == e2
    ensures exists e: Ed25519Error :: EcdhConvertible(e) && EcdhErrorFromEd25519(e) == x
  {
    match x
    case WeakPk => assert EcdhErrorFromEd25519(WeakPublicKey) == x;
    case InvalidPk(_) => assert EcdhErrorFromEd25519(InvalidPublicKey) == x;
    case InvalidSk(_) => assert EcdhErrorFromEd25519(InvalidSecretKey) == x;
  }

  // ---------------------------------------------------------------------------
  // The curve traits, as records of their operations. They state no laws.

  /** `EcPk`: `COMPRESSED_LEN`, `CURVE_NAME`, `base_point`, `to_pk_compressed`,
      `from_pk_compressed`, `from_pk_compressed_slice`. */
  datatype EcPk<!Pk> = EcPk(
    compressedLen: usize,
    curveName: string,
    basePoint: Pk,
    toPkCompressed: Pk -> seq<u8>,
    fromPkCompressed: seq<u8> -> Result<Pk, EcPkInvalid>,
    fromPkCompressedSlice: seq<u8> -> Result<Pk, EcPkInvalid>)

  /** `EcSk` without `generate_keypair`, which draws randomness: `to_pk`. */
  datatype EcSk<!Sk, !Pk> = EcSk(pk: EcPk<Pk>, toPk: Sk -> Result<Pk, EcSkInvalid>)

  /** `Ecdh`: `ecdh(secret, public)`. */
  datatype Ecdh<!Sk, !Pk, !SharedSecret> = Ecdh(sk: EcSk<Sk, Pk>, ecdh: (Sk, Pk) -> Result<SharedSecret, EcdhError>)

  /** `EcSign`: `sign(secret, message)`. */
  datatype EcSign<!Sk, !Pk, !Sig> = EcSign(sk: EcSk<Sk, Pk>, sign: (Sk, seq<u8>) -> Sig)
}
