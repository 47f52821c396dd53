/**
 The crypto handler that does not encrypt: the identity strategy of the SDK's
 encryption abstraction. Its factory, API level, key store entry and context
 arguments are accepted and ignored. The key store entry and the byte array
 may each be null (None): a null array is handed back as it came.
 */
module CryptoNoOpHandler {
  import opened Wrappers

  type byte = bv8

  /** The factory producing ciphers and key generators (never consulted here). */
  datatype CryptoFactory = CryptoFactory(id: nat)

  /** An entry of the platform key store. */
  datatype KeyStoreEntry = KeyStoreEntry(alias: string, material: seq<byte>)

  /** The application context. */
  datatype Context = Context(id: nat)

  /** The platform key store, by alias. */
  type KeyStore = map<string, KeyStoreEntry>

  /** Name of the algorithm this handler applies. */
  function GetAlgorithm(): (r: string)
    ensures r == "None"
  {
    "None"
  }

  /** Key generation for `alias`: the key store is left exactly as it was. */
  function GenerateKey(factory: CryptoFactory, alias: string, context: Context, keyStore: KeyStore): (r: KeyStore)
    ensures r == keyStore
  {
    keyStore
  }

  /** "Encrypting" returns the input bytes unchanged. */
  function Encrypt(factory: CryptoFactory, apiLevel: int, entry: Option<KeyStoreEntry>, data: Option<seq<byte>>): (r: Option<seq<byte>>)
    ensures r == data
  {
    data
  }

  /** "Decrypting" returns the input bytes unchanged. */
  function Decrypt(factory: CryptoFactory, apiLevel: int, entry: Option<KeyStoreEntry>, data: Option<seq<byte>>): (r: Option<seq<byte>>)
    ensures r == data
  {
    data
  }

  /**
   Decrypting what was encrypted gives the data back, and so does the reverse,
   even with a different factory, API level or key store entry on each side.
   */
  lemma RoundTrip(f1: CryptoFactory, api1: int, e1: Option<KeyStoreEntry>, f2: CryptoFactory, api2: int, e2: Option<KeyStoreEntry>, data: Option<seq<byte>>)
    ensures Decrypt(f2, api2, e2, Encrypt(f1, api1, e1, data)) == data
    ensures Encrypt(f2, api2, e2, Decrypt(f1, api1, e1, data)) == data
  {
  }

  /** One call of the handler on a byte array, with the arguments it was given. */
  datatype Call =
    | EncryptCall(factory: CryptoFactory, apiLevel: int, entry: Option<KeyStoreEntry>)
    | DecryptCall(factory: CryptoFactory, apiLevel: int, entry: Option<KeyStoreEntry>)

  /** The bytes after the calls are applied, first to last. */
  function ApplyCalls(calls: seq<Call>, data: Option<seq<byte>>): Option<seq<byte>>
    decreases |calls|
  {
    if calls == [] then data
    else
      var once := match calls[0]
        case EncryptCall(f, api, e) => Encrypt(f, api, e, data)
        case DecryptCall(f, api, e) => Decrypt(f, api, e, data);
      ApplyCalls(calls[1..], once)
  }

  /** Any sequence of encryptions and decryptions, in any order and with any arguments, leaves the bytes unchanged. */
  lemma {:induction false} ApplyCallsIsIdentity(calls: seq<Call>, data: Option<seq<byte>>)
    ensures ApplyCalls(calls, data) == data
    decreases |calls|
  {
    if calls != [] {
      ApplyCallsIsIdentity(calls[1..], data);
    }
  }
}
