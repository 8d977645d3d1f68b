/**
 * A stand-in for the Solana ledger reached through `Connection`, and the
 * `Transaction` object the buy handler fills in before submitting it.
 *
 * The ledger is an external service; only the answers the server relies
 * on are modelled: account lookup (`getAccountInfo`), balance lookup
 * (`getBalance`, 0 for an unknown address), the latest blockhash, and
 * `sendAndConfirmTransaction`, whose preflight either accepts a signed
 * message and applies its transfers, or rejects it and changes nothing.
 */
module Chain {
  import opened Wrappers

  /** A public key in its base58 text form (`PublicKey.toString()`). */
  type Address = string
  type Blockhash = string
  /** A transaction signature in its base58 text form. */
  type Signature = string
  type Byte = x: int | 0 <= x < 256

  datatype Keypair = Keypair(publicKey: Address, secretKey: seq<Byte>)

  /** The fields of an `AccountInfo` the server reads. */
  datatype Account = Account(owner: Address, lamports: nat, dataLength: nat)

  const SYSTEM_PROGRAM_ID: Address := "11111111111111111111111111111111"

  /** A `SystemProgram.transfer` instruction. */
  datatype Transfer = Transfer(from: Address, to: Address, lamports: nat)

  /** What the signers sign: the blockhash, the fee payer and the instructions. */
  datatype Message = Message(recentBlockhash: Blockhash, feePayer: Address, instructions: seq<Transfer>)

  /** `getBalance`: the lamports of an account, 0 when it does not exist. */
  function BalanceOf(accounts: map<Address, Account>, a: Address): nat
  {
    if a in accounts then accounts[a].lamports else 0
  }

  function Debit(accounts: map<Address, Account>, a: Address, n: nat): (r: map<Address, Account>)
    requires BalanceOf(accounts, a) >= n
    ensures r.Keys == accounts.Keys
    ensures BalanceOf(r, a) == BalanceOf(accounts, a) - n
    ensures forall b :: b in accounts && b != a ==> r[b] == accounts[b]
  {
    if a in accounts then accounts[a := accounts[a].(lamports := accounts[a].lamports - n)] else accounts
  }

  /** Crediting an address that has no account creates a system-owned one. */
  function Credit(accounts: map<Address, Account>, a: Address, n: nat): (r: map<Address, Account>)
    ensures r.Keys == accounts.Keys + {a}
    ensures BalanceOf(r, a) == BalanceOf(accounts, a) + n
    ensures forall b :: b in accounts && b != a ==> r[b] == accounts[b]
  {
    if a in accounts then accounts[a := accounts[a].(lamports := accounts[a].lamports + n)]
    else accounts[a := Account(SYSTEM_PROGRAM_ID, n, 0)]
  }

  /** Runs the transfers in order; None when a source cannot cover its transfer. */
  function ApplyTransfers(accounts: map<Address, Account>, ixs: seq<Transfer>): (r: Option<map<Address, Account>>)
    ensures r.Some? ==> accounts.Keys <= r.value.Keys
    ensures r.Some? ==> forall i :: 0 <= i < |ixs| ==> ixs[i].to in r.value
    decreases |ixs|
  {
    if ixs == [] then Some(accounts)
    else if BalanceOf(accounts, ixs[0].from) < ixs[0].lamports then None
    else ApplyTransfers(Credit(Debit(accounts, ixs[0].from, ixs[0].lamports), ixs[0].to, ixs[0].lamports), ixs[1..])
  }

  /** The public keys of the signers, in order. */
  function PublicKeys(signers: seq<Keypair>): (keys: seq<Address>)
    ensures |keys| == |signers|
    ensures forall i :: 0 <= i < |signers| ==> keys[i] == signers[i].publicKey
  {
    seq(|signers|, i requires 0 <= i < |signers| => signers[i].publicKey)
  }

  /** The first signer whose public key is `a`. */
  function FindSigner(signers: seq<Keypair>, a: Address): (k: Option<Keypair>)
    ensures k.Some? <==> a in PublicKeys(signers)
    ensures k.Some? ==> k.value in signers && k.value.publicKey == a
  {
    if signers == [] then None
    else if signers[0].publicKey == a then Some(signers[0])
    else
      assert PublicKeys(signers) == [signers[0].publicKey] + PublicKeys(signers[1..]);
      FindSigner(signers[1..], a)
  }

  /** The signer found is the first one with that public key. */
  lemma {:induction false} FindSignerIsFirst(signers: seq<Keypair>, a: Address)
    requires FindSigner(signers, a).Some?
    ensures exists i ::
      0 <= i < |signers| && signers[i] == FindSigner(signers, a).value &&
      forall j :: 0 <= j < i ==> signers[j].publicKey != a
  {
    if signers[0].publicKey == a {
      assert signers[0] == FindSigner(signers, a).value;
    } else {
      FindSignerIsFirst(signers[1..], a);
      var i :| 0 <= i < |signers[1..]| && signers[1..][i] == FindSigner(signers[1..], a).value &&
        forall j :: 0 <= j < i ==> signers[1..][j].publicKey != a;
      assert signers[i + 1] == FindSigner(signers, a).value;
      assert forall j :: 0 <= j < i + 1 ==> signers[j].publicKey != a by {
        forall j | 0 <= j < i + 1
          ensures signers[j].publicKey != a
        {
          if j > 0 {
            assert signers[j] == signers[1..][j - 1];
          }
        }
      }
    }
  }

  /** The transaction object: `new Transaction().add(...)`, then its
      `recentBlockhash` and `feePayer` properties are assigned. */
  class Transaction {
    var instructions: seq<Transfer>
    var recentBlockhash: Option<Blockhash>
    var feePayer: Option<Address>

    constructor ()
      ensures instructions == [] && recentBlockhash == None && feePayer == None
    {
      instructions := [];
      recentBlockhash := None;
      feePayer := None;
    }

    /** `Transaction.add`: appends an instruction. */
    method Add(ix: Transfer)
      modifies this
      ensures instructions == old(instructions) + [ix]
      ensures recentBlockhash == old(recentBlockhash) && feePayer == old(feePayer)
    {
      instructions := instructions + [ix];
    }

    /** The message to sign; None while the blockhash or fee payer is unset. */
    function CompileMessage(): (m: Option<Message>)
      reads this
      ensures m.Some? <==> recentBlockhash.Some? && feePayer.Some?
      ensures m.Some? ==> m.value.instructions == instructions
      ensures m.Some? ==> m.value.recentBlockhash == recentBlockhash.value && m.value.feePayer == feePayer.value
    {
      if recentBlockhash.Some? && feePayer.Some? then Some(Message(recentBlockhash.value, feePayer.value, instructions))
      else None
    }
  }

  class Ledger {
    var accounts: map<Address, Account>
    var latestBlockhash: Blockhash
    /** The fee charged per signature, debited from the fee payer. */
    var feePerSignature: nat
    /** Confirmed transactions, oldest first. */
    var confirmed: seq<(Signature, Message)>

    constructor (accounts: map<Address, Account>, blockhash: Blockhash, feePerSignature: nat)
      ensures this.accounts == accounts && latestBlockhash == blockhash
      ensures this.feePerSignature == feePerSignature && confirmed == []
    {
      this.accounts := accounts;
      latestBlockhash := blockhash;
      this.feePerSignature := feePerSignature;
      confirmed := [];
    }

    /**
     * The accounts after the ledger runs `m`, signed by `signers`; None when
     * preflight rejects it: a stale blockhash, a fee payer or transfer
     * source that did not sign, or a balance that cannot cover the
     * signature fees and then the transfers.
     */
    function Outcome(m: Message, signers: seq<Address>): (r: Option<map<Address, Account>>)
      reads this
      ensures r.Some? ==> m.recentBlockhash == latestBlockhash && m.feePayer in signers
      ensures r.Some? ==> forall i :: 0 <= i < |m.instructions| ==> m.instructions[i].from in signers
      ensures r.Some? ==> BalanceOf(accounts, m.feePayer) >= feePerSignature * |signers|
    {
      if m.recentBlockhash != latestBlockhash || m.feePayer !in signers then None
      else if exists i :: 0 <= i < |m.instructions| && m.instructions[i].from !in signers then None
      else if BalanceOf(accounts, m.feePayer) < feePerSignature * |signers| then None
      else ApplyTransfers(Debit(accounts, m.feePayer, feePerSignature * |signers|), m.instructions)
    }

    /** `connection.getAccountInfo(a)`. */
    method GetAccountInfo(a: Address) returns (info: Option<Account>)
      ensures info.Some? <==> a in accounts
      ensures info.Some? ==> info.value == accounts[a]
    {
      info := if a in accounts then Some(accounts[a]) else None;
    }

    /** `connection.getBalance(a)`. */
    method GetBalance(a: Address) returns (lamports: nat)
      ensures lamports == BalanceOf(accounts, a)
    {
      lamports := if a in accounts then accounts[a].lamports else 0;
    }

    /** `connection.getLatestBlockhash()`. */
    method GetLatestBlockhash() returns (blockhash: Blockhash)
      ensures blockhash == latestBlockhash
    {
      blockhash := latestBlockhash;
    }

    /** Submits a signed message and waits for confirmation. */
    method Submit(m: Message, signers: seq<Address>, signature: Signature) returns (ok: bool)
      modifies this
      ensures ok <==> old(Outcome(m, signers)).Some?
      ensures ok ==> accounts == old(Outcome(m, signers)).value && confirmed == old(confirmed) + [(signature, m)]
      ensures !ok ==> accounts == old(accounts) && confirmed == old(confirmed)
      ensures latestBlockhash == old(latestBlockhash) && feePerSignature == old(feePerSignature)
    {
      var outcome := Outcome(m, signers);
      ok := outcome.Some?;
      if ok {
        accounts := outcome.value;
        confirmed := confirmed + [(signature, m)];
      }
    }
  }

  /**
   * `sendAndConfirmTransaction(connection, tx, signers)`: compiles the
   * message, signs it (the transaction's signature is the fee payer's),
   * submits it and answers the signature; None where the library or the
   * ledger throws.
   */
  method SendAndConfirmTransaction(ledger: Ledger, tx: Transaction, signers: seq<Keypair>,
                                   sign: (Keypair, Message) -> Signature)
    returns (r: Option<Signature>)
    modifies ledger
    ensures ledger.latestBlockhash == old(ledger.latestBlockhash)
    ensures ledger.feePerSignature == old(ledger.feePerSignature)
    ensures tx.CompileMessage().None? ==> r.None?
    ensures r.None? ==> ledger.accounts == old(ledger.accounts) && ledger.confirmed == old(ledger.confirmed)
    ensures tx.CompileMessage().Some? ==>
      var m := tx.CompileMessage().value;
      var outcome := old(ledger.Outcome(m, PublicKeys(signers)));
      (r.Some? <==> outcome.Some?) &&
      (r.Some? ==>
        FindSigner(signers, m.feePayer).Some? &&
        r.value == sign(FindSigner(signers, m.feePayer).value, m) &&
        ledger.accounts == outcome.value &&
        ledger.confirmed == old(ledger.confirmed) + [(r.value, m)])
  {
    var m := tx.CompileMessage();
    if m.None? {
      return None;
    }
    var payer := FindSigner(signers, m.value.feePayer);
    if payer.None? {
      return None;
    }
    var signature := sign(payer.value, m.value);
    var ok := ledger.Submit(m.value, PublicKeys(signers), signature);
    r := if ok then Some(signature) else None;
  }
}
