/**
 * The library calls the server makes but whose code is not part of this
 * model, as functions supplied by the caller of the model.
 */
module Foreign {
  import opened Wrappers
  import opened Chain

  /** What `JSON.parse` gives: a throw, an array of numbers, or any other value. */
  datatype Json = JsonError | JsonArray(items: seq<int>) | JsonOther

  datatype Crypto = Crypto(
    /** `bs58.decode`; None when it throws. */
    base58Decode: string -> Option<seq<Byte>>,
    /** `Number(token)` on an integral token; None for NaN. */
    toNumber: string -> Option<int>,
    /** `JSON.parse`. */
    jsonParse: string -> Json,
    /** `Keypair.fromSecretKey`; None when it throws. */
    fromSecretKey: seq<Byte> -> Option<Keypair>,
    /** `PublicKey.findProgramAddressSync(seeds, programId)`, first component;
        None when it throws. */
    findProgramAddress: (seq<string>, Address) -> Option<Address>,
    /** `new PublicKey(text)` succeeds. */
    isPublicKey: string -> bool,
    /** The signature a keypair produces over a message. */
    sign: (Keypair, Message) -> Signature)
}
