/**
 * The read-only handlers: `check-name`, `verify-name`, `check-balance`
 * and `verify-transaction`. Each makes one ledger lookup; the ledger's
 * accounts, or the transaction the ledger returns, are passed in.
 */
module Queries {
  import opened Wrappers
  import opened Chain
  import opened Foreign
  import opened Network
  import opened Names
  import opened Credentials
  import opened Registration

  // ---- check-name ----

  /** check-name's answers: the availability report, or the 500 answer
      when the derivation throws. */
  datatype NameAvailability =
    | CheckNameFailed
    | NameAvailability(name: string, available: bool, nameAccount: Address)

  /** `GET /api/check-name/:name`; the name is not validated here. */
  function CheckName(c: Crypto, name: string, accounts: map<Address, Account>): (r: NameAvailability)
    ensures r.CheckNameFailed? <==> DeriveNameAccount(c.findProgramAddress, name).None?
    ensures r.NameAvailability? ==>
      DeriveNameAccount(c.findProgramAddress, name) == Some(r.nameAccount) &&
      (r.available <==> r.nameAccount !in accounts) &&
      r.name == name
  {
    match DeriveNameAccount(c.findProgramAddress, name)
    case None => CheckNameFailed
    case Some(nameAccount) => NameAvailability(name, nameAccount !in accounts, nameAccount)
  }

  // ---- verify-name ----

  datatype RegistrationDetails =
    RegistrationDetails(owner: Address, lamports: nat, dataLength: nat, network: string, explorerUrl: string)

  /** verify-name's answers: the registration report, or the 500 answer
      when the derivation throws. */
  datatype NameRegistration =
    | VerifyNameFailed
    | NameRegistration(name: string, registered: bool, available: bool, nameAccount: Address,
                       details: Option<RegistrationDetails>)

  /** `GET /api/verify-name/:name`: the account's owner, balance and data
      length when it exists. */
  function VerifyName(env: Env, c: Crypto, name: string, accounts: map<Address, Account>): (r: NameRegistration)
    ensures r.VerifyNameFailed? <==> DeriveNameAccount(c.findProgramAddress, name).None?
    ensures r.NameRegistration? ==>
      r.name == name &&
      (r.registered <==> !r.available) &&
      (r.registered <==> r.details.Some?) &&
      DeriveNameAccount(c.findProgramAddress, name) == Some(r.nameAccount) &&
      (r.registered <==> r.nameAccount in accounts)
    ensures r.NameRegistration? && r.registered ==>
      var d := r.details.value;
      d.owner == accounts[r.nameAccount].owner && d.lamports == accounts[r.nameAccount].lamports &&
      d.dataLength == accounts[r.nameAccount].dataLength && d.network == NetworkName(env) &&
      d.explorerUrl == AccountExplorerUrl(NetworkName(env), r.nameAccount)
  {
    match DeriveNameAccount(c.findProgramAddress, name)
    case None => VerifyNameFailed
    case Some(nameAccount) =>
      if nameAccount !in accounts then NameRegistration(name, false, true, nameAccount, None)
      else
        var info := accounts[nameAccount];
        var network := NetworkName(env);
        NameRegistration(name, true, false, nameAccount,
          Some(RegistrationDetails(info.owner, info.lamports, info.dataLength, network,
                                   AccountExplorerUrl(network, nameAccount))))
  }

  /** check-name and verify-name agree: both fail on the same names, and
      otherwise a name is registered exactly when it is unavailable. */
  lemma CheckAndVerifyAgree(env: Env, c: Crypto, name: string, accounts: map<Address, Account>)
    ensures VerifyName(env, c, name, accounts).VerifyNameFailed? <==> CheckName(c, name, accounts).CheckNameFailed?
    ensures CheckName(c, name, accounts).NameAvailability? ==>
      VerifyName(env, c, name, accounts).registered == !CheckName(c, name, accounts).available &&
      VerifyName(env, c, name, accounts).nameAccount == CheckName(c, name, accounts).nameAccount
  {
  }

  /** Availability ignores case. */
  lemma AvailabilityIgnoresCase(c: Crypto, a: string, b: string, accounts: map<Address, Account>)
    requires SameIgnoringCase(a, b)
    ensures CheckName(c, a, accounts).CheckNameFailed? <==> CheckName(c, b, accounts).CheckNameFailed?
    ensures CheckName(c, a, accounts).NameAvailability? ==>
      CheckName(c, a, accounts).available == CheckName(c, b, accounts).available &&
      CheckName(c, a, accounts).nameAccount == CheckName(c, b, accounts).nameAccount
  {
    DerivationIgnoresCase(c.findProgramAddress, a, b);
  }

  /** After the ledger confirms a registration of `name`, check-name reports
      that name, in any letter case, as taken, at the registered account. */
  lemma RegisteredNameUnavailable(ledger: Ledger, env: Env, body: Body, c: Crypto, other: string)
    requires Decide(env, body, c, ledger.accounts).Register?
    requires SameIgnoringCase(other, body.name.s)
    ensures var p := Decide(env, body, c, ledger.accounts);
      var after := ledger.Outcome(RegistrationMessage(p, ledger.latestBlockhash), [p.payer.publicKey]);
      after.Some? ==> CheckName(c, other, after.value) == NameAvailability(other, false, p.nameAccount)
  {
    var p := Decide(env, body, c, ledger.accounts);
    var m := RegistrationMessage(p, ledger.latestBlockhash);
    var after := ledger.Outcome(m, [p.payer.publicKey]);
    if after.Some? {
      assert m.instructions[0].to == p.nameAccount;
      DerivationIgnoresCase(c.findProgramAddress, other, body.name.s);
    }
  }

  // ---- check-balance ----

  datatype BalanceResponse =
    | InvalidAddress
    | BalanceReport(address: string, balanceLamports: nat, required: string, sufficient: bool,
                    network: string, faucetUrl: Option<string>)

  /** `GET /api/check-balance/:address`. */
  function CheckBalance(env: Env, c: Crypto, address: string, accounts: map<Address, Account>): (r: BalanceResponse)
    ensures r.InvalidAddress? <==> !c.isPublicKey(address)
    ensures r.BalanceReport? ==>
      r.address == address && r.balanceLamports == BalanceOf(accounts, address) &&
      r.network == NetworkName(env) &&
      (r.sufficient <==> BalanceOf(accounts, address) >= BalanceFloor(NetworkName(env))) &&
      (r.faucetUrl.Some? <==> NetworkName(env) == TESTNET) &&
      r.faucetUrl == FaucetUrl(NetworkName(env)) &&
      r.required == RequiredSolText(NetworkName(env))
  {
    if !c.isPublicKey(address) then InvalidAddress
    else
      var network := NetworkName(env);
      var balance := BalanceOf(accounts, address);
      BalanceReport(address, balance, RequiredSolText(network), SufficientBalance(network, balance),
                    network, if network == TESTNET then Some(FAUCET_URL) else None)
  }

  /** check-balance calls a payer sufficient exactly when the buy handler's
      balance check passes for the same network and ledger. */
  lemma SufficientIffPurchasePassesFloor(env: Env, body: Body, c: Crypto, accounts: map<Address, Account>)
    requires ReachesLedger(c, body)
    requires DeriveNameAccount(c.findProgramAddress, body.name.s).Some?
    requires DeriveNameAccount(c.findProgramAddress, body.name.s).value !in accounts
    requires c.isPublicKey(ParseKeypair(c, body.privateKey).value.publicKey)
    ensures var payer := ParseKeypair(c, body.privateKey).value.publicKey;
      CheckBalance(env, c, payer, accounts).sufficient <==> Decide(env, body, c, accounts).Register?
    ensures var payer := ParseKeypair(c, body.privateKey).value.publicKey;
      CheckBalance(env, c, payer, accounts).faucetUrl == FaucetUrl(NetworkName(env))
  {
  }

  // ---- verify-transaction ----

  /** An entry of a legacy message's `accountKeys`: a string, an object
      with a `pubkey` field, or a `PublicKey` instance (no `pubkey` field). */
  datatype AccountKey = KeyText(text: string) | KeyRecord(pubkey: Address) | KeyObject(address: Address)

  /** `tx.transaction.message`: a legacy message lists `accountKeys`; a
      version-0 message has only `staticAccountKeys` (and lookup tables). */
  datatype FetchedMessage =
    | LegacyMessage(accountKeys: seq<AccountKey>)
    | VersionedMessage(staticAccountKeys: seq<Address>)

  /** The ledger's execution error object, kept opaque. */
  datatype TxError = TxError(detail: string)

  datatype TxMeta = TxMeta(err: Option<TxError>, fee: nat)

  /** The fields of `getTransaction`'s answer the handler reads. */
  datatype FetchedTransaction =
    FetchedTransaction(slot: nat, blockTime: Option<int>, meta: Option<TxMeta>, message: FetchedMessage)

  /** The report; block time is kept in seconds and the fee in lamports. */
  datatype TxReport =
    TxReport(signature: Signature, confirmed: bool, status: string, error: Option<TxError>, slot: nat,
             blockTime: Option<int>, feeLamports: Option<nat>, accounts: seq<string>)

  datatype TxLookup =
    | TxNotFound
    | TxServerError
    | TxFound(transaction: TxReport, network: string, explorerUrl: string)

  function LookupStatusCode(r: TxLookup): (code: nat)
    ensures code == 404 <==> r.TxNotFound?
    ensures code == 500 <==> r.TxServerError?
    ensures code == 200 <==> r.TxFound?
  {
    match r
    case TxNotFound => 404
    case TxServerError => 500
    case TxFound(_, _, _) => 200
  }

  /** The address a key stands for. */
  function KeyString(k: AccountKey): string
  {
    match k
    case KeyText(text) => text
    case KeyRecord(pubkey) => pubkey
    case KeyObject(address) => address
  }

  /** The handler's mapping of one key: `key.pubkey.toString()` throws on a
      `PublicKey` instance, which has no `pubkey`. */
  function KeyStringAsWritten(k: AccountKey): (r: Option<string>)
    ensures r.None? <==> k.KeyObject?
    ensures r.Some? ==> r.value == KeyString(k)
  {
    match k
    case KeyText(text) => Some(text)
    case KeyRecord(pubkey) => Some(pubkey)
    case KeyObject(_) => None
  }

  /** One address per key, in order. */
  function KeyList(keys: seq<AccountKey>): (r: seq<string>)
    ensures |r| == |keys|
    ensures forall i :: 0 <= i < |keys| ==> r[i] == KeyString(keys[i])
  {
    if keys == [] then [] else [KeyString(keys[0])] + KeyList(keys[1..])
  }

  /** `accountKeys.map(...)` as written: it throws at the first `PublicKey`
      instance and otherwise yields every key's address. */
  function KeyListAsWritten(keys: seq<AccountKey>): (r: Option<seq<string>>)
    ensures r.None? <==> exists i :: 0 <= i < |keys| && keys[i].KeyObject?
    ensures r.Some? ==> r.value == KeyList(keys)
  {
    if keys == [] then Some([])
    else match KeyStringAsWritten(keys[0])
      case None => None
      case Some(k) =>
        match KeyListAsWritten(keys[1..])
        case None => None
        case Some(rest) => Some([k] + rest)
  }

  /** The transaction's static account addresses, for either message version. */
  function AccountList(m: FetchedMessage): (r: seq<string>)
    ensures m.LegacyMessage? ==>
      |r| == |m.accountKeys| && forall i :: 0 <= i < |m.accountKeys| ==> r[i] == KeyString(m.accountKeys[i])
    ensures m.VersionedMessage? ==> r == m.staticAccountKeys
  {
    match m
    case LegacyMessage(keys) => KeyList(keys)
    case VersionedMessage(keys) => keys
  }

  /** `tx.transaction.message.accountKeys.map(...)` as written: a version-0
      message has no `accountKeys`, so `.map` throws. */
  function AccountListAsWritten(m: FetchedMessage): (r: Option<seq<string>>)
    ensures r.None? <==>
      m.VersionedMessage? || exists i :: 0 <= i < |m.accountKeys| && m.accountKeys[i].KeyObject?
    ensures r.Some? ==> r.value == AccountList(m)
  {
    match m
    case LegacyMessage(keys) => KeyListAsWritten(keys)
    case VersionedMessage(_) => None
  }

  function TxReportOf(signature: Signature, tx: FetchedTransaction, accounts: seq<string>): TxReport
  {
    var confirmed := tx.meta.Some? && tx.meta.value.err.None?;
    TxReport(
      signature,
      confirmed,
      if confirmed then "success" else "failed",
      if tx.meta.Some? then tx.meta.value.err else None,
      tx.slot,
      if tx.blockTime.Some? && tx.blockTime.value != 0 then tx.blockTime else None,
      if tx.meta.Some? && tx.meta.value.fee != 0 then Some(tx.meta.value.fee) else None,
      accounts)
  }

  /** `GET /api/verify-transaction/:signature`, given what `getTransaction`
      returned, with every key shape mapped to its address. */
  function VerifyTransaction(env: Env, signature: Signature, fetched: Option<FetchedTransaction>): (r: TxLookup)
    ensures r.TxNotFound? <==> fetched.None?
    ensures r.TxFound? <==> fetched.Some?
    ensures r.TxFound? ==>
      var tx := fetched.value;
      var report := r.transaction;
      (report.confirmed <==> tx.meta.Some? && tx.meta.value.err.None?) &&
      (report.status == "success" <==> report.confirmed) &&
      (report.status == "failed" <==> !report.confirmed) &&
      (report.error.Some? <==> tx.meta.Some? && tx.meta.value.err.Some?) &&
      (report.error.Some? ==> report.error == tx.meta.value.err) &&
      report.signature == signature && report.slot == tx.slot &&
      (report.blockTime.Some? <==> tx.blockTime.Some? && tx.blockTime.value != 0) &&
      (report.blockTime.Some? ==> report.blockTime == tx.blockTime) &&
      (report.feeLamports.Some? <==> tx.meta.Some? && tx.meta.value.fee != 0) &&
      (report.feeLamports.Some? ==> report.feeLamports.value == tx.meta.value.fee) &&
      (tx.message.LegacyMessage? ==>
        |report.accounts| == |tx.message.accountKeys| &&
        forall i :: 0 <= i < |tx.message.accountKeys| ==> report.accounts[i] == KeyString(tx.message.accountKeys[i])) &&
      (tx.message.VersionedMessage? ==> report.accounts == tx.message.staticAccountKeys) &&
      r.network == NetworkName(env) && r.explorerUrl == TxExplorerUrl(NetworkName(env), signature)
  {
    match fetched
    case None => TxNotFound
    case Some(tx) =>
      var network := NetworkName(env);
      TxFound(TxReportOf(signature, tx, AccountList(tx.message)), network, TxExplorerUrl(network, signature))
  }

  /** The handler as written: the same answer, except that a transaction
      whose keys it cannot map (a version-0 message, or a `PublicKey`
      instance among the keys) makes it answer 500. */
  function VerifyTransactionAsWritten(env: Env, signature: Signature, fetched: Option<FetchedTransaction>): (r: TxLookup)
    ensures r.TxNotFound? <==> fetched.None?
    ensures r.TxServerError? <==> fetched.Some? && AccountListAsWritten(fetched.value.message).None?
    ensures !r.TxServerError? ==> r == VerifyTransaction(env, signature, fetched)
  {
    match fetched
    case None => TxNotFound
    case Some(tx) =>
      match AccountListAsWritten(tx.message)
      case None => TxServerError
      case Some(accounts) =>
        var network := NetworkName(env);
        TxFound(TxReportOf(signature, tx, accounts), network, TxExplorerUrl(network, signature))
  }

  /** A legacy message whose keys are `PublicKey` instances, and any
      version-0 message, are answered 500 as written, while the intended
      handler reports their accounts. */
  lemma KeyShapesAnswer500(env: Env, signature: Signature)
    ensures var legacy := FetchedTransaction(1, None, Some(TxMeta(None, 5000)), LegacyMessage([KeyObject(SYSTEM_PROGRAM_ID)]));
      LookupStatusCode(VerifyTransactionAsWritten(env, signature, Some(legacy))) == 500 &&
      VerifyTransaction(env, signature, Some(legacy)).transaction.accounts == [SYSTEM_PROGRAM_ID]
    ensures var v0 := FetchedTransaction(1, None, Some(TxMeta(None, 5000)), VersionedMessage([SYSTEM_PROGRAM_ID]));
      LookupStatusCode(VerifyTransactionAsWritten(env, signature, Some(v0))) == 500 &&
      VerifyTransaction(env, signature, Some(v0)).transaction.accounts == [SYSTEM_PROGRAM_ID]
  {
    var legacy := FetchedTransaction(1, None, Some(TxMeta(None, 5000)), LegacyMessage([KeyObject(SYSTEM_PROGRAM_ID)]));
    assert legacy.message.accountKeys[0].KeyObject?;
  }

  /** A transaction without `meta` is reported as failed, with no error and no fee. */
  lemma MissingMetaIsFailed(env: Env, signature: Signature, tx: FetchedTransaction)
    requires tx.meta.None?
    ensures var report := VerifyTransaction(env, signature, Some(tx)).transaction;
      !report.confirmed && report.status == "failed" && report.error.None? && report.feeLamports.None?
  {
  }
}
